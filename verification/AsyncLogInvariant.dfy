/** What every reachable state of the asynchronous logger satisfies: the parts of the invariant about
    the nodes of the queue. */
module AsyncLogInvariant {
  import opened AsyncLogModel

  // ---- Lists of nodes ----

  predicate IsList(q: Queue, k: nat) { k == 0 || k in q.sides }

  /** The chain is list 0; a side list has its first node's address for a name. */
  function ListAt(q: Queue, k: nat): seq<Ref> {
    if k == 0 then q.chain else if k in q.sides then q.sides[k] else []
  }

  function Last(list: seq<Ref>): Ref
    requires list != []
  {
    list[|list| - 1]
  }

  /** In use, and in list k. */
  predicate Placed(q: Queue, addr: nat, k: nat) {
    addr > 0 && addr in q.heap && addr !in q.pool && addr in q.home && q.home[addr] == k
  }

  /** The nodes of a list are linked one to the next, and the last one to nothing. */
  ghost predicate Linked(q: Queue, k: nat, list: seq<Ref>) {
    && list != []
    && (forall i :: 0 <= i < |list| ==> Placed(q, list[i].addr, k))
    && (forall i, j :: 0 <= i < j < |list| ==> list[i].addr != list[j].addr)
    && (forall i :: 0 <= i < |list| - 1 ==> NextOf(q, list[i]) == list[i + 1])
    && NextOf(q, Last(list)) == NULL
  }

  ghost predicate InList(list: seq<Ref>, addr: nat) {
    exists i :: 0 <= i < |list| && list[i].addr == addr
  }

  ghost predicate AtHome(q: Queue, addr: nat) {
    addr in q.home && IsList(q, q.home[addr]) && InList(ListAt(q, q.home[addr]), addr)
  }

  ghost predicate AllLinked(q: Queue) {
    forall k :: IsList(q, k) ==> Linked(q, k, ListAt(q, k))
  }

  ghost predicate AllHome(q: Queue) {
    forall a :: a in q.home ==> AtHome(q, a)
  }

  /** Side lists have their names; mHead is the first node of the chain and mTail one of it. */
  ghost predicate Named(q: Queue) {
    && (forall k :: k in q.sides ==> k > 0 && q.sides[k] != [] && q.sides[k][0].addr == k)
    && q.chain != [] && q.head == q.chain[0] && q.tail in q.chain
  }

  ghost predicate ListsInv(q: Queue) { AllLinked(q) && AllHome(q) && Named(q) }

  /** Nodes outside the lists have a successor, so nothing is linked to them; the pool's are such. */
  ghost predicate PoolInv(q: Queue) {
    && (forall a :: a in q.heap && a !in q.home ==> q.heap[a].next != NULL)
    && (forall i :: 0 <= i < |q.pool| ==> q.pool[i] > 0 && q.pool[i] in q.heap && q.pool[i] !in q.home)
    && (forall i, j :: 0 <= i < j < |q.pool| ==> q.pool[i] != q.pool[j])
  }

  function BornOf(q: Queue, addr: nat): nat { if addr in q.born then q.born[addr] else 0 }

  /** The node of an unfinished Enqueue is younger than those that hang on it. */
  ghost predicate BirthInv(q: Queue) {
    && (forall a :: a in q.born ==> q.born[a] < q.allocs)
    && 0 < q.allocs
    && (forall k, i :: k in q.sides && 0 <= i < |q.sides[k]| ==> BornOf(q, q.sides[k][i].addr) <= BornOf(q, k))
  }

  predicate HasNode(pc: Producer) { pc.LoadingTail? || pc.Linking? || pc.HelpLoading? || pc.Helping? }

  ghost predicate OwnSide(q: Queue, pc: Producer)
    requires HasNode(pc)
  {
    pc.me.addr in q.sides && q.sides[pc.me.addr] != [] && q.sides[pc.me.addr][0] == pc.me && DataOf(q, pc.me) == pc.buf
  }

  /** Each side list is one unfinished Enqueue's; a node just dequeued is in no list and not in the pool. */
  ghost predicate NodesInv(q: Queue, producers: seq<Producer>, consumer: Consumer) {
    && (forall p :: 0 <= p < |producers| && HasNode(producers[p]) ==> OwnSide(q, producers[p]))
    && DifferentNodes(producers)
    && (forall k :: k in q.sides ==> SideOwned(producers, k))
    && (consumer.FreeingNode? ==> Retired(q, consumer.head.addr))
  }

  ghost predicate DifferentNodes(producers: seq<Producer>) {
    forall p, r :: 0 <= p < r < |producers| && HasNode(producers[p]) && HasNode(producers[r])
      ==> producers[p].me.addr != producers[r].me.addr
  }

  ghost predicate SideOwned(producers: seq<Producer>, k: nat) {
    exists p :: 0 <= p < |producers| && HasNode(producers[p]) && producers[p].me.addr == k
  }

  predicate Retired(q: Queue, addr: nat) {
    addr > 0 && addr in q.heap && addr !in q.pool && addr !in q.home
  }

  predicate HoldsTail(pc: Producer) { pc.Linking? || pc.HelpLoading? || pc.Helping? || pc.SwingingTail? }

  /** A thread past its CAS remembers a tagged pointer that, wherever it is in a list, has a successor:
      the one the thread will move mTail to. */
  ghost predicate HasSuccessor(list: seq<Ref>, pc: Producer)
    requires pc.HelpLoading? || pc.Helping? || pc.SwingingTail?
  {
    forall i :: 0 <= i < |list| && list[i] == pc.tail ==>
      && i + 1 < |list|
      && (pc.Helping? ==> list[i + 1] == pc.next)
      && (pc.SwingingTail? ==> list[i + 1] == pc.me)
  }

  /** What a thread knows about the tail it has read, however long ago. A node that has been handed out
      again since is younger than the thread's own. */
  ghost predicate TailKnown(q: Queue, pc: Producer) {
    && (HoldsTail(pc) ==> pc.tail.addr in q.heap)
    && (pc.Linking? && HomeOf(q, pc.tail.addr) != 0 ==> BornOf(q, pc.me.addr) < BornOf(q, pc.tail.addr))
    && (pc.HelpLoading? || pc.Helping? || pc.SwingingTail? ==> forall k :: IsList(q, k) ==>
        HasSuccessor(ListAt(q, k), pc))
  }

  ghost predicate TailsInv(q: Queue, producers: seq<Producer>) {
    forall p :: 0 <= p < |producers| ==> TailKnown(q, producers[p])
  }

  /** What the consumer knows while it dequeues. */
  ghost predicate ConsumerInv(q: Queue, consumer: Consumer) {
    match consumer
    case LoadingHeadTail(head) => head == q.head
    case LoadingNext(head, tail) => head == q.head && (tail != head ==> q.tail != q.head)
    case Deciding(head, tail, next) =>
      head == q.head && (tail != head ==> q.tail != q.head && |q.chain| >= 2 && next == q.chain[1])
    case LoadingData(head, next) => head == q.head && q.tail != q.head && |q.chain| >= 2 && next == q.chain[1]
    case SwingingHead(head, next, buf) =>
      head == q.head && q.tail != q.head && |q.chain| >= 2 && next == q.chain[1] && buf == DataOf(q, next)
    case _ => true
  }

  // ---- Handing out a node ----

  lemma AllocOutside(q: Queue, addr: nat)
    requires ListsInv(q) && PoolInv(q) && CanAlloc(q, addr)
    ensures addr > 0 && addr !in q.home && addr !in q.sides && q.home.Keys <= q.heap.Keys
  {
    assert forall k :: k in q.sides ==> Linked(q, k, ListAt(q, k)) && Placed(q, q.sides[k][0].addr, k);
    forall a | a in q.home
      ensures a in q.heap
    {
      HomeIsUsed(q, a);
    }
  }

  /** A node with a home is in use. */
  lemma HomeIsUsed(q: Queue, addr: nat)
    requires ListsInv(q) && addr in q.home
    ensures Placed(q, addr, q.home[addr]) && IsList(q, q.home[addr])
  {
    var k := q.home[addr];
    assert AtHome(q, addr);
    var i :| 0 <= i < |ListAt(q, k)| && ListAt(q, k)[i].addr == addr;
    assert Linked(q, k, ListAt(q, k));
  }

  lemma ListsAlloc(q: Queue, me: Ref, buf: nat)
    requires ListsInv(q) && PoolInv(q) && CanAlloc(q, me.addr)
    ensures ListsInv(AllocNode(q, me, buf))
  {
    hide Linked;
    AllocOutside(q, me.addr);
    AllLinkedAlloc(q, me, buf);
    hide AllLinked;
    AllHomeAlloc(q, me, buf);
  }

  lemma AllLinkedAlloc(q: Queue, me: Ref, buf: nat)
    requires AllLinked(q) && PoolInv(q) && CanAlloc(q, me.addr) && me.addr > 0 && me.addr !in q.home
    ensures AllLinked(AllocNode(q, me, buf))
  {
    hide Linked;
    var q' := AllocNode(q, me, buf);
    forall k | IsList(q', k)
      ensures Linked(q', k, ListAt(q', k))
    {
      if k == me.addr {
        AllocatedIsUsed(q, me, buf);
      } else {
        assert Linked(q, k, ListAt(q, k));
        LinkedElsewhere(q, me, buf, k);
      }
    }
  }

  lemma AllHomeAlloc(q: Queue, me: Ref, buf: nat)
    requires AllHome(q) && me.addr > 0 && me.addr !in q.home && me.addr !in q.sides
    ensures AllHome(AllocNode(q, me, buf))
  {
    var q' := AllocNode(q, me, buf);
    forall a | a in q'.home
      ensures AtHome(q', a)
    {
      if a == me.addr {
        assert ListAt(q', a)[0].addr == a;
      } else {
        assert AtHome(q, a);
      }
    }
  }

  lemma AllocatedIsUsed(q: Queue, me: Ref, buf: nat)
    requires PoolInv(q) && CanAlloc(q, me.addr) && me.addr > 0
    ensures Linked(AllocNode(q, me, buf), me.addr, [me])
  {
  }

  lemma LinkedElsewhere(q: Queue, me: Ref, buf: nat, k: nat)
    requires k != me.addr && me.addr !in q.home && Linked(q, k, ListAt(q, k))
    ensures Linked(AllocNode(q, me, buf), k, ListAt(q, k))
  {
    var q', list := AllocNode(q, me, buf), ListAt(q, k);
    forall i | 0 <= i < |list|
      ensures Placed(q', list[i].addr, k) && NextOf(q', list[i]) == NextOf(q, list[i])
    {
      assert Placed(q, list[i].addr, k);
    }
  }

  lemma PoolAlloc(q: Queue, me: Ref, buf: nat)
    requires PoolInv(q) && CanAlloc(q, me.addr)
    ensures PoolInv(AllocNode(q, me, buf))
  {
    var q' := AllocNode(q, me, buf);
    forall i | 0 <= i < |q'.pool|
      ensures q'.pool[i] == q.pool[i] != me.addr
    {
    }
  }

  lemma BirthAlloc(q: Queue, me: Ref, buf: nat)
    requires ListsInv(q) && PoolInv(q) && BirthInv(q) && CanAlloc(q, me.addr)
    ensures BirthInv(AllocNode(q, me, buf))
  {
    var q' := AllocNode(q, me, buf);
    AllocOutside(q, me.addr);
    forall k, i | k in q'.sides && 0 <= i < |q'.sides[k]|
      ensures BornOf(q', q'.sides[k][i].addr) <= BornOf(q', k)
    {
      if k != me.addr {
        SideElsewhere(q, me.addr, k, i);
        assert BornOf(q, q.sides[k][i].addr) <= BornOf(q, k);
      }
    }
  }

  lemma SideElsewhere(q: Queue, addr: nat, k: nat, i: nat)
    requires AllLinked(q) && addr !in q.home && k in q.sides && k > 0 && i < |q.sides[k]|
    ensures q.sides[k][i].addr != addr
  {
    assert Linked(q, k, ListAt(q, k));
    assert Placed(q, q.sides[k][i].addr, k);
  }

  lemma NodesAlloc(q: Queue, producers: seq<Producer>, c: Consumer, p: nat, me: Ref, buf: nat)
    requires NodesInv(q, producers, c) && p < |producers| && producers[p].HavingId? && me.addr !in q.sides
    requires c.FreeingNode? ==> Retired(AllocNode(q, me, buf), c.head.addr)
    ensures NodesInv(AllocNode(q, me, buf), producers[p := LoadingTail(buf, me)], c)
  {
    var q', ps := AllocNode(q, me, buf), producers[p := LoadingTail(buf, me)];
    hide Retired;
    forall r | 0 <= r < |ps| && HasNode(ps[r])
      ensures OwnSide(q', ps[r]) && (r != p ==> ps[r].me.addr != me.addr)
    {
      if r != p {
        assert OwnSide(q, producers[r]);
      }
    }
    forall k | k in q'.sides
      ensures SideOwned(ps, k)
    {
      if k == me.addr {
        assert ps[p].me.addr == k;
      } else {
        SideStaysOwned(producers, ps, k) by {
          assert SideOwned(producers, k);
        }
      }
    }
  }

  lemma SideStaysOwned(producers: seq<Producer>, ps: seq<Producer>, k: nat)
    requires SideOwned(producers, k) && |ps| == |producers|
    requires forall r :: 0 <= r < |ps| && HasNode(producers[r]) && producers[r].me.addr == k ==>
      HasNode(ps[r]) && ps[r].me.addr == k
    ensures SideOwned(ps, k)
  {
    var r :| 0 <= r < |producers| && HasNode(producers[r]) && producers[r].me.addr == k;
    assert HasNode(ps[r]);
  }

  lemma RetiredNotFree(q: Queue, me: Ref, buf: nat, other: nat)
    requires PoolInv(q) && CanAlloc(q, me.addr) && Retired(q, other)
    ensures other != me.addr && Retired(AllocNode(q, me, buf), other)
  {
  }

  lemma TailsAlloc(q: Queue, producers: seq<Producer>, p: nat, me: Ref, buf: nat)
    requires ListsInv(q) && PoolInv(q) && BirthInv(q) && TailsInv(q, producers)
    requires p < |producers| && producers[p].HavingId? && CanAlloc(q, me.addr) && NewTag(producers, me)
    requires forall r :: 0 <= r < |producers| && HasNode(producers[r]) ==> producers[r].me.addr in q.sides
    ensures TailsInv(AllocNode(q, me, buf), producers[p := LoadingTail(buf, me)])
  {
    var q', ps := AllocNode(q, me, buf), producers[p := LoadingTail(buf, me)];
    AllocOutside(q, me.addr);
    forall r | 0 <= r < |ps|
      ensures TailKnown(q', ps[r])
    {
      if r != p {
        assert TailKnown(q, producers[r]) && !Remembers(producers[r], me);
        TailAlloc(q, producers[r], me, buf);
      }
    }
  }

  lemma TailAlloc(q: Queue, pc: Producer, me: Ref, buf: nat)
    requires BirthInv(q) && TailKnown(q, pc) && !Remembers(pc, me)
    requires me.addr !in q.sides && me.addr > 0 && (HasNode(pc) ==> pc.me.addr in q.sides)
    ensures TailKnown(AllocNode(q, me, buf), pc)
  {
    var q' := AllocNode(q, me, buf);
    if pc.HelpLoading? || pc.Helping? || pc.SwingingTail? {
      forall k | IsList(q', k)
        ensures HasSuccessor(ListAt(q', k), pc)
      {
        assert k != me.addr ==> ListAt(q', k) == ListAt(q, k) && HasSuccessor(ListAt(q, k), pc);
      }
    }
  }

  // ---- Linking a node ----

  lemma LinkedLast(q: Queue, k: nat, list: seq<Ref>, i: nat)
    requires Linked(q, k, list) && i < |list| && NextOf(q, list[i]) == NULL
    ensures i == |list| - 1
  {
    if i < |list| - 1 {
      HasNext(q, k, list, i);
    }
  }

  lemma HasNext(q: Queue, k: nat, list: seq<Ref>, i: nat)
    requires Linked(q, k, list) && i < |list| - 1
    ensures NextOf(q, list[i]) == list[i + 1] != NULL
  {
    assert Placed(q, list[i + 1].addr, k);
  }

  /** Where a node without a successor is: at the end of a list. */
  lemma NoSuccessorIsLast(q: Queue, r: Ref)
    requires ListsInv(q) && PoolInv(q) && r.addr in q.heap && NextOf(q, r) == NULL
    ensures r.addr in q.home && IsList(q, q.home[r.addr])
    ensures var list := ListAt(q, q.home[r.addr]); list != [] && Last(list).addr == r.addr
  {
    var k := q.home[r.addr];
    assert AtHome(q, r.addr);
    var list := ListAt(q, k);
    var i :| 0 <= i < |list| && list[i].addr == r.addr;
    LinkedLast(q, k, list, i);
  }

  /** A thread links its list behind the node it has read: not behind its own. */
  lemma LinksElsewhere(q: Queue, producers: seq<Producer>, c: Consumer, p: nat)
    requires ListsInv(q) && PoolInv(q) && BirthInv(q) && NodesInv(q, producers, c)
    requires p < |producers| && producers[p].Linking? && TailKnown(q, producers[p])
      && NextOf(q, producers[p].tail) == NULL
    ensures CanLink(q, producers[p].me, producers[p].tail)
  {
    var pc := producers[p];
    NoSuccessorIsLast(q, pc.tail);
    var k := q.home[pc.tail.addr];
    assert OwnSide(q, pc);
    var own := q.sides[pc.me.addr];
    assert BornOf(q, own[|own| - 1].addr) <= BornOf(q, pc.me.addr);
  }

  /** A CAS of Next that is about to succeed. */
  ghost predicate CanLink(q: Queue, me: Ref, tail: Ref) {
    && tail.addr in q.home && IsList(q, q.home[tail.addr]) && q.home[tail.addr] != me.addr
    && ListAt(q, q.home[tail.addr]) != [] && Last(ListAt(q, q.home[tail.addr])).addr == tail.addr
    && me.addr in q.sides && q.sides[me.addr] != [] && q.sides[me.addr][0] == me && me.addr > 0
  }

  lemma LinkLists(q: Queue, me: Ref, tail: Ref)
    requires CanLink(q, me, tail)
    ensures
      var q', k := LinkNode(q, me, tail), q.home[tail.addr];
      && ListAt(q', k) == ListAt(q, k) + q.sides[me.addr]
      && (forall j :: IsList(q', j) <==> IsList(q, j) && j != me.addr)
      && (forall j :: j != k && j != me.addr ==> ListAt(q', j) == ListAt(q, j))
  {
  }

  /** The nodes of the list that moves, after the move. */
  lemma PlacedLink(q: Queue, me: Ref, tail: Ref, addr: nat, j: nat)
    requires CanLink(q, me, tail) && Placed(q, addr, j)
    ensures Placed(LinkNode(q, me, tail), addr, if j == me.addr then q.home[tail.addr] else j)
    ensures addr != tail.addr ==> NextOf(LinkNode(q, me, tail), Ref(addr, 0)) == NextOf(q, Ref(addr, 0))
    ensures addr == tail.addr ==> NextOf(LinkNode(q, me, tail), Ref(addr, 0)) == me
    ensures DataOf(LinkNode(q, me, tail), Ref(addr, 0)) == DataOf(q, Ref(addr, 0))
  {
  }

  lemma NextByAddress(q: Queue, r: Ref)
    ensures NextOf(q, r) == NextOf(q, Ref(r.addr, 0)) && DataOf(q, r) == DataOf(q, Ref(r.addr, 0))
  {
  }

  /** Lists other than the two keep their links. */
  lemma LinkedOther(q: Queue, me: Ref, tail: Ref, j: nat)
    requires CanLink(q, me, tail) && j != me.addr && j != q.home[tail.addr] && Linked(q, j, ListAt(q, j))
    ensures Linked(LinkNode(q, me, tail), j, ListAt(q, j))
  {
    var q', list := LinkNode(q, me, tail), ListAt(q, j);
    hide LinkNode;
    forall i | 0 <= i < |list|
      ensures Placed(q', list[i].addr, j) && NextOf(q', list[i]) == NextOf(q, list[i])
    {
      assert Placed(q, list[i].addr, j);
      PlacedLink(q, me, tail, list[i].addr, j);
      NextByAddress(q, list[i]);
      NextByAddress(q', list[i]);
    }
  }

  lemma LinkedBoth(q: Queue, me: Ref, tail: Ref)
    requires CanLink(q, me, tail)
    requires Linked(q, q.home[tail.addr], ListAt(q, q.home[tail.addr])) && Linked(q, me.addr, q.sides[me.addr])
    ensures Linked(LinkNode(q, me, tail), q.home[tail.addr], ListAt(q, q.home[tail.addr]) + q.sides[me.addr])
  {
    var q', k := LinkNode(q, me, tail), q.home[tail.addr];
    var first, second := ListAt(q, k), q.sides[me.addr];
    var both := first + second;
    hide LinkNode;
    forall i | 0 <= i < |first|
      ensures Placed(q', first[i].addr, k) && NextOf(q', first[i]) == both[i + 1]
    {
      assert Placed(q, first[i].addr, k);
      PlacedLink(q, me, tail, first[i].addr, k);
      NextByAddress(q, first[i]);
      NextByAddress(q', first[i]);
      if i < |first| - 1 {
        assert first[i].addr != first[|first| - 1].addr;
        assert NextOf(q, first[i]) == first[i + 1];
      }
    }
    forall i | 0 <= i < |second|
      ensures Placed(q', second[i].addr, k) && NextOf(q', second[i]) == NextOf(q, second[i])
    {
      assert Placed(q, second[i].addr, me.addr);
      PlacedLink(q, me, tail, second[i].addr, me.addr);
      NextByAddress(q, second[i]);
      NextByAddress(q', second[i]);
    }
    LinkedConcat(q, q', me.addr, k, first, second);
  }

  lemma LinkedConcat(q: Queue, q': Queue, j: nat, k: nat, first: seq<Ref>, second: seq<Ref>)
    requires j != k && Linked(q, k, first) && Linked(q, j, second)
    requires forall i :: 0 <= i < |first| ==>
      Placed(q', first[i].addr, k) && NextOf(q', first[i]) == (first + second)[i + 1]
    requires forall i :: 0 <= i < |second| ==>
      Placed(q', second[i].addr, k) && NextOf(q', second[i]) == NextOf(q, second[i])
    ensures Linked(q', k, first + second)
  {
    var both, n := first + second, |first|;
    forall i, m | 0 <= i < m < |both|
      ensures both[i].addr != both[m].addr
    {
      if i < n <= m {
        assert Placed(q, first[i].addr, k) && Placed(q, second[m - n].addr, j);
      }
    }
    forall i | 0 <= i < |both| - 1
      ensures NextOf(q', both[i]) == both[i + 1]
    {
      if n <= i {
        assert NextOf(q, second[i - n]) == second[i - n + 1];
      }
    }
    assert Last(both) == Last(second);
  }

  lemma ListsLink(q: Queue, me: Ref, tail: Ref)
    requires ListsInv(q) && CanLink(q, me, tail)
    ensures ListsInv(LinkNode(q, me, tail))
  {
    AllLinkedLink(q, me, tail);
    AllHomeLink(q, me, tail);
    hide AllLinked, AllHome;
    LinkLists(q, me, tail);
    NamedLink(q, me, tail);
  }

  lemma AllLinkedLink(q: Queue, me: Ref, tail: Ref)
    requires AllLinked(q) && CanLink(q, me, tail)
    ensures AllLinked(LinkNode(q, me, tail))
  {
    var q', k := LinkNode(q, me, tail), q.home[tail.addr];
    LinkLists(q, me, tail);
    hide Linked, LinkNode;
    assert Linked(q, k, ListAt(q, k)) && Linked(q, me.addr, ListAt(q, me.addr));
    LinkedBoth(q, me, tail);
    forall j | IsList(q', j)
      ensures Linked(q', j, ListAt(q', j))
    {
      if j != k {
        assert Linked(q, j, ListAt(q, j));
        LinkedOther(q, me, tail, j);
      }
    }
  }

  lemma AllHomeLink(q: Queue, me: Ref, tail: Ref)
    requires AllHome(q) && CanLink(q, me, tail)
    ensures AllHome(LinkNode(q, me, tail))
  {
    var q' := LinkNode(q, me, tail);
    forall a | a in q'.home
      ensures AtHome(q', a)
    {
      assert AtHome(q, a);
      HomeLink(q, me, tail, a);
    }
  }

  lemma NamedLink(q: Queue, me: Ref, tail: Ref)
    requires Named(q) && CanLink(q, me, tail)
    ensures Named(LinkNode(q, me, tail))
  {
    var q' := LinkNode(q, me, tail);
    assert q.chain <= q'.chain;
    var i :| 0 <= i < |q.chain| && q.chain[i] == q.tail;
    assert q'.chain[i] == q.tail;
  }

  lemma HomeLink(q: Queue, me: Ref, tail: Ref, a: nat)
    requires CanLink(q, me, tail) && AtHome(q, a)
    ensures AtHome(LinkNode(q, me, tail), a)
  {
    var q', k := LinkNode(q, me, tail), q.home[tail.addr];
    LinkLists(q, me, tail);
    var j := q.home[a];
    var i :| 0 <= i < |ListAt(q, j)| && ListAt(q, j)[i].addr == a;
    if j == me.addr {
      assert ListAt(q', k)[|ListAt(q, k)| + i].addr == a;
    } else {
      assert ListAt(q', j)[i].addr == a;
    }
  }

  lemma PoolLink(q: Queue, me: Ref, tail: Ref)
    requires PoolInv(q) && CanLink(q, me, tail)
    ensures PoolInv(LinkNode(q, me, tail))
  {
  }

  lemma BirthLink(q: Queue, me: Ref, tail: Ref)
    requires BirthInv(q) && CanLink(q, me, tail) && 0 !in q.sides
    requires q.home[tail.addr] != 0 ==> BornOf(q, me.addr) < BornOf(q, tail.addr)
    ensures BirthInv(LinkNode(q, me, tail))
  {
    var q', k := LinkNode(q, me, tail), q.home[tail.addr];
    forall j, i | j in q'.sides && 0 <= i < |q'.sides[j]|
      ensures BornOf(q', q'.sides[j][i].addr) <= BornOf(q', j)
    {
      if j != k {
        assert q'.sides[j] == q.sides[j];
        assert BornOf(q, q.sides[j][i].addr) <= BornOf(q, j);
      } else {
        var first, second := q.sides[k], q.sides[me.addr];
        assert q'.sides[k] == first + second;
        var n := |first| - 1;
        assert BornOf(q, first[n].addr) <= BornOf(q, k);
        if i > n {
          assert BornOf(q, second[i - n - 1].addr) <= BornOf(q, me.addr);
        }
      }
    }
  }

  lemma NodesLink(q: Queue, producers: seq<Producer>, c: Consumer, p: nat)
    requires NodesInv(q, producers, c) && p < |producers| && producers[p].Linking?
    requires CanLink(q, producers[p].me, producers[p].tail)
    ensures
      var pc := producers[p];
      NodesInv(LinkNode(q, pc.me, pc.tail), producers[p := SwingingTail(pc.me, pc.tail)], c)
  {
    var pc := producers[p];
    var q', ps := LinkNode(q, pc.me, pc.tail), producers[p := SwingingTail(pc.me, pc.tail)];
    LinkLists(q, pc.me, pc.tail);
    forall r | 0 <= r < |ps| && HasNode(ps[r])
      ensures OwnSide(q', ps[r])
    {
      assert OwnSide(q, producers[r]);
      assert ps[r].me.addr != pc.me.addr;
    }
    forall j | j in q'.sides
      ensures SideOwned(ps, j)
    {
      assert j in q.sides && j != pc.me.addr;
      assert SideOwned(producers, j);
      var r :| 0 <= r < |producers| && HasNode(producers[r]) && producers[r].me.addr == j;
      assert ps[r] == producers[r];
    }
  }

  lemma TailsLink(q: Queue, producers: seq<Producer>, c: Consumer, p: nat)
    requires ListsInv(q) && NodesInv(q, producers, c) && TailsInv(q, producers)
    requires p < |producers| && producers[p].Linking? && CanLink(q, producers[p].me, producers[p].tail)
    ensures
      var pc := producers[p];
      TailsInv(LinkNode(q, pc.me, pc.tail), producers[p := SwingingTail(pc.me, pc.tail)])
  {
    var pc := producers[p];
    var q', ps := LinkNode(q, pc.me, pc.tail), producers[p := SwingingTail(pc.me, pc.tail)];
    forall r | 0 <= r < |ps|
      ensures TailKnown(q', ps[r])
    {
      assert TailKnown(q, producers[r]);
      if r == p {
        OwnTailLink(q, pc);
      } else {
        TailLink(q, pc.me, pc.tail, producers[r]);
      }
    }
  }

  lemma TailLink(q: Queue, me: Ref, tail: Ref, pc: Producer)
    requires CanLink(q, me, tail) && TailKnown(q, pc)
    ensures TailKnown(LinkNode(q, me, tail), pc)
  {
    var q', k := LinkNode(q, me, tail), q.home[tail.addr];
    LinkLists(q, me, tail);
    if pc.HelpLoading? || pc.Helping? || pc.SwingingTail? {
      forall j | IsList(q', j)
        ensures HasSuccessor(ListAt(q', j), pc)
      {
        assert HasSuccessor(ListAt(q, j), pc) && HasSuccessor(ListAt(q, me.addr), pc);
        if j == k {
          SuccessorConcat(ListAt(q, k), q.sides[me.addr], pc);
        }
      }
    }
  }

  lemma SuccessorConcat(first: seq<Ref>, second: seq<Ref>, pc: Producer)
    requires pc.HelpLoading? || pc.Helping? || pc.SwingingTail?
    requires HasSuccessor(first, pc) && HasSuccessor(second, pc)
    ensures HasSuccessor(first + second, pc)
  {
    var both, n := first + second, |first|;
    forall i | 0 <= i < |both| && both[i] == pc.tail
      ensures i + 1 < |both| && (pc.Helping? ==> both[i + 1] == pc.next) && (pc.SwingingTail? ==> both[i + 1] == pc.me)
    {
      if i < n {
        assert first[i] == pc.tail;
      } else {
        assert second[i - n] == pc.tail;
      }
    }
  }

  /** The thread that has linked: wherever its tail is in a list, its own node follows. */
  lemma OwnTailLink(q: Queue, pc: Producer)
    requires ListsInv(q) && pc.Linking? && TailKnown(q, pc) && CanLink(q, pc.me, pc.tail)
    ensures TailKnown(LinkNode(q, pc.me, pc.tail), SwingingTail(pc.me, pc.tail))
  {
    var q', k := LinkNode(q, pc.me, pc.tail), q.home[pc.tail.addr];
    var pc' := SwingingTail(pc.me, pc.tail);
    LinkLists(q, pc.me, pc.tail);
    forall j | IsList(q', j)
      ensures HasSuccessor(ListAt(q', j), pc')
    {
      assert Linked(q, j, ListAt(q, j)) && Linked(q, pc.me.addr, ListAt(q, pc.me.addr));
      forall i | 0 <= i < |ListAt(q', j)| && ListAt(q', j)[i] == pc.tail
        ensures j == k && i == |ListAt(q, k)| - 1
      {
        OnlyLast(q, pc.me, pc.tail, j, i);
      }
    }
  }

  lemma OnlyLast(q: Queue, me: Ref, tail: Ref, j: nat, i: nat)
    requires CanLink(q, me, tail) && j != me.addr && Linked(q, j, ListAt(q, j)) && Linked(q, me.addr, q.sides[me.addr])
    requires
      var k := q.home[tail.addr];
      var list := if j == k then ListAt(q, k) + q.sides[me.addr] else ListAt(q, j);
      i < |list| && list[i] == tail
    ensures j == q.home[tail.addr] && i == |ListAt(q, j)| - 1
  {
    var n := |ListAt(q, j)|;
    assert forall m :: 0 <= m < |q.sides[me.addr]| ==> Placed(q, q.sides[me.addr][m].addr, me.addr);
    assert i < n;
    assert Placed(q, ListAt(q, j)[i].addr, j);
    assert forall m :: 0 <= m < n - 1 ==> ListAt(q, j)[m].addr != ListAt(q, j)[n - 1].addr;
  }

  // ---- Moving mTail ----

  /** A CAS of mTail that succeeds moves it on by one node of the chain. */
  lemma CasTailCase(q: Queue, pc: Producer)
    requires ListsInv(q) && (pc.Helping? || pc.SwingingTail?) && TailKnown(q, pc)
    ensures q.tail == pc.tail ==> MovesOn(q, if pc.Helping? then pc.next else pc.me)
  {
    if q.tail == pc.tail {
      assert IsList(q, 0) && HasSuccessor(ListAt(q, 0), pc);
      var i :| 0 <= i < |q.chain| && q.chain[i] == q.tail;
      assert q.chain[i + 1] == if pc.Helping? then pc.next else pc.me;
    }
  }

  /** r comes right after mTail. */
  ghost predicate MovesOn(q: Queue, r: Ref) {
    exists i :: 1 <= i < |q.chain| && q.chain[i] == r && q.chain[i - 1] == q.tail
  }

  lemma MoveTail(q: Queue, r: Ref, producers: seq<Producer>, c: Consumer)
    requires ListsInv(q) && PoolInv(q) && BirthInv(q) && NodesInv(q, producers, c) && TailsInv(q, producers)
    requires r in q.chain
    ensures
      var q' := q.(tail := r);
      ListsInv(q') && PoolInv(q') && BirthInv(q') && NodesInv(q', producers, c) && TailsInv(q', producers)
  {
    var q' := q.(tail := r);
    hide NodesInv, TailsInv, PoolInv, BirthInv;
    ListsMoveTail(q, r);
    NodesMoveTail(q, r, producers, c);
    TailsMoveTail(q, r, producers);
    PoolMoveTail(q, r);
  }

  lemma ListsMoveTail(q: Queue, r: Ref)
    requires ListsInv(q) && r in q.chain
    ensures ListsInv(q.(tail := r))
  {
    ListsFrame(q, q.(tail := r));
  }

  /** The lists do not depend on the pool, as long as it stays clear of them, nor on which node of the
      chain mTail is. */
  lemma ListsFrame(q: Queue, q': Queue)
    requires ListsInv(q) && q'.tail in q'.chain
    requires q'.heap == q.heap && q'.head == q.head && q'.chain == q.chain && q'.sides == q.sides && q'.home == q.home
    requires forall a :: a in q'.pool ==> a in q.pool || a !in q.home
    ensures ListsInv(q')
  {
    assert AllLinked(q') by {
      forall k | IsList(q', k)
        ensures Linked(q', k, ListAt(q', k))
      {
        assert IsList(q, k) && ListAt(q', k) == ListAt(q, k);
        LinkedFrame(q, q', k, ListAt(q, k));
      }
    }
    hide AllLinked;
    forall a | a in q'.home
      ensures AtHome(q', a)
    {
      assert AtHome(q, a);
    }
  }

  lemma LinkedFrame(q: Queue, q': Queue, k: nat, list: seq<Ref>)
    requires Linked(q, k, list) && q'.heap == q.heap && q'.home == q.home
    requires forall a :: a in q'.pool ==> a in q.pool || a !in q.home
    ensures Linked(q', k, list)
  {
    forall i | 0 <= i < |list|
      ensures Placed(q', list[i].addr, k)
    {
      assert Placed(q, list[i].addr, k);
    }
  }

  lemma PoolMoveTail(q: Queue, r: Ref)
    requires PoolInv(q) && BirthInv(q)
    ensures PoolInv(q.(tail := r)) && BirthInv(q.(tail := r))
  {
    var q' := q.(tail := r);
    assert forall k, i :: k in q'.sides && 0 <= i < |q'.sides[k]| ==> BornOf(q, q'.sides[k][i].addr) <= BornOf(q, k);
  }

  lemma NodesMoveTail(q: Queue, r: Ref, producers: seq<Producer>, c: Consumer)
    requires NodesInv(q, producers, c)
    ensures NodesInv(q.(tail := r), producers, c)
  {
    var q' := q.(tail := r);
    forall p | 0 <= p < |producers| && HasNode(producers[p])
      ensures OwnSide(q', producers[p])
    {
      assert OwnSide(q, producers[p]);
    }
  }

  lemma TailsMoveTail(q: Queue, r: Ref, producers: seq<Producer>)
    requires TailsInv(q, producers)
    ensures TailsInv(q.(tail := r), producers)
  {
    var q' := q.(tail := r);
    forall p | 0 <= p < |producers|
      ensures TailKnown(q', producers[p])
    {
      assert TailKnown(q, producers[p]);
      SameListsTail(q, q', producers[p]);
    }
  }

  /** What a thread knows depends only on the lists. */
  lemma SameListsTail(q: Queue, q': Queue, pc: Producer)
    requires TailKnown(q, pc) && q'.heap.Keys == q.heap.Keys && q'.chain == q.chain && q'.sides == q.sides
      && q'.born == q.born
    requires q'.home == q.home
    ensures TailKnown(q', pc)
  {
    if pc.HelpLoading? || pc.Helping? || pc.SwingingTail? {
      forall k | IsList(q', k)
        ensures HasSuccessor(ListAt(q', k), pc)
      {
        assert IsList(q, k) && HasSuccessor(ListAt(q, k), pc);
      }
    }
  }

  // ---- Taking and freeing a node ----

  lemma ListsTake(q: Queue)
    requires ListsInv(q) && |q.chain| >= 2 && q.tail != q.head
    ensures ListsInv(TakeHead(q, q.chain[1]))
  {
    HeadPlaced(q);
    AllLinkedTake(q);
    hide AllLinked;
    AllHomeTake(q);
    hide AllHome;
    NamedTake(q);
  }

  lemma AllLinkedTake(q: Queue)
    requires AllLinked(q) && |q.chain| >= 2 && q.head == q.chain[0] && Placed(q, q.head.addr, 0)
    ensures AllLinked(TakeHead(q, q.chain[1]))
  {
    hide Linked, Placed;
    var q' := TakeHead(q, q.chain[1]);
    forall k | IsList(q', k)
      ensures Linked(q', k, ListAt(q', k))
    {
      assert Linked(q, k, ListAt(q, k));
      LinkedTake(q, k);
    }
  }

  lemma AllHomeTake(q: Queue)
    requires AllHome(q) && |q.chain| >= 2 && q.head == q.chain[0]
    ensures AllHome(TakeHead(q, q.chain[1]))
  {
    forall a | a in TakeHead(q, q.chain[1]).home
      ensures AtHome(TakeHead(q, q.chain[1]), a)
    {
      assert AtHome(q, a);
      HomeTake(q, a);
    }
  }

  lemma NamedTake(q: Queue)
    requires Named(q) && |q.chain| >= 2 && q.tail != q.head
    ensures Named(TakeHead(q, q.chain[1]))
  {
    var q' := TakeHead(q, q.chain[1]);
    var i :| 0 <= i < |q.chain| && q.chain[i] == q.tail;
    assert q'.chain[i - 1] == q.tail;
  }

  lemma HeadPlaced(q: Queue)
    requires ListsInv(q)
    ensures Placed(q, q.head.addr, 0) && (|q.chain| >= 2 ==> NextOf(q, q.head) == q.chain[1] && q.chain[1] != NULL)
  {
    assert Linked(q, 0, ListAt(q, 0));
    assert forall i :: 0 <= i < |q.chain| ==> Placed(q, q.chain[i].addr, 0);
  }

  lemma LinkedTake(q: Queue, k: nat)
    requires IsList(q, k) && Linked(q, k, ListAt(q, k)) && |q.chain| >= 2 && q.head == q.chain[0]
      && Placed(q, q.head.addr, 0)
    ensures Linked(TakeHead(q, q.chain[1]), k, if k == 0 then q.chain[1..] else ListAt(q, k))
  {
    var q', list := TakeHead(q, q.chain[1]), ListAt(q, k);
    forall i | 0 <= i < |list| && (k == 0 ==> i > 0)
      ensures Placed(q', list[i].addr, k) && NextOf(q', list[i]) == NextOf(q, list[i])
    {
      assert Placed(q, list[i].addr, k);
      assert k == 0 ==> list[0].addr != list[i].addr;
    }
    if k == 0 {
      forall i | 0 <= i < |q.chain[1..]| - 1
        ensures NextOf(q', q.chain[1..][i]) == q.chain[1..][i + 1]
      {
        assert NextOf(q, list[i + 1]) == list[i + 2];
      }
    }
  }

  lemma HomeTake(q: Queue, a: nat)
    requires AtHome(q, a) && |q.chain| >= 2 && q.head == q.chain[0] && a != q.head.addr
    ensures AtHome(TakeHead(q, q.chain[1]), a)
  {
    var q', k := TakeHead(q, q.chain[1]), q.home[a];
    var i :| 0 <= i < |ListAt(q, k)| && ListAt(q, k)[i].addr == a;
    if k == 0 {
      assert q'.chain[i - 1].addr == a;
    } else {
      assert ListAt(q', k)[i].addr == a;
    }
  }

  lemma PoolTake(q: Queue)
    requires ListsInv(q) && PoolInv(q) && |q.chain| >= 2
    ensures PoolInv(TakeHead(q, q.chain[1])) && Retired(TakeHead(q, q.chain[1]), q.head.addr)
  {
    HeadPlaced(q);
    hide ListsInv;
    HeadRetires(q, q.chain[1]);
  }

  lemma HeadRetires(q: Queue, next: Ref)
    requires PoolInv(q) && Placed(q, q.head.addr, 0) && NextOf(q, q.head) != NULL
    ensures PoolInv(TakeHead(q, next)) && Retired(TakeHead(q, next), q.head.addr)
  {
    hide NULL;
    var q' := TakeHead(q, next);
    assert q'.heap == q.heap && q'.pool == q.pool && q'.home == q.home - {q.head.addr};
  }

  lemma BirthTake(q: Queue)
    requires BirthInv(q) && |q.chain| >= 2
    ensures BirthInv(TakeHead(q, q.chain[1]))
  {
    var q' := TakeHead(q, q.chain[1]);
    assert forall k, i :: k in q'.sides && 0 <= i < |q'.sides[k]| ==> BornOf(q, q'.sides[k][i].addr) <= BornOf(q, k);
  }

  lemma NodesTake(q: Queue, producers: seq<Producer>, c: Consumer, buf: nat)
    requires NodesInv(q, producers, c) && |q.chain| >= 2 && Retired(TakeHead(q, q.chain[1]), q.head.addr)
    ensures NodesInv(TakeHead(q, q.chain[1]), producers, FreeingNode(q.head, buf))
  {
    var q' := TakeHead(q, q.chain[1]);
    forall p | 0 <= p < |producers| && HasNode(producers[p])
      ensures OwnSide(q', producers[p])
    {
      assert OwnSide(q, producers[p]);
    }
  }

  lemma TailsTake(q: Queue, producers: seq<Producer>)
    requires TailsInv(q, producers) && |q.chain| >= 2
    ensures TailsInv(TakeHead(q, q.chain[1]), producers)
  {
    var q' := TakeHead(q, q.chain[1]);
    forall p | 0 <= p < |producers|
      ensures TailKnown(q', producers[p])
    {
      assert TailKnown(q, producers[p]);
      TailTake(q, producers[p]);
    }
  }

  lemma TailTake(q: Queue, pc: Producer)
    requires TailKnown(q, pc) && |q.chain| >= 2
    ensures TailKnown(TakeHead(q, q.chain[1]), pc)
  {
    var q' := TakeHead(q, q.chain[1]);
    if pc.HelpLoading? || pc.Helping? || pc.SwingingTail? {
      forall k | IsList(q', k)
        ensures HasSuccessor(ListAt(q', k), pc)
      {
        assert IsList(q, k) && HasSuccessor(ListAt(q, k), pc);
        assert k == 0 ==> forall i :: 0 <= i < |q'.chain| ==> q'.chain[i] == q.chain[i + 1];
      }
    }
  }

  lemma ListsFree(q: Queue, addr: nat)
    requires ListsInv(q) && PoolInv(q) && BirthInv(q) && Retired(q, addr)
    ensures ListsInv(FreeNode(q, addr)) && PoolInv(FreeNode(q, addr)) && BirthInv(FreeNode(q, addr))
  {
    ListsFrame(q, FreeNode(q, addr));
    hide ListsInv;
    PoolFree(q, addr);
  }

  lemma PoolFree(q: Queue, addr: nat)
    requires PoolInv(q) && BirthInv(q) && Retired(q, addr)
    ensures PoolInv(FreeNode(q, addr)) && BirthInv(FreeNode(q, addr))
  {
    var q' := FreeNode(q, addr);
    assert forall k, i :: k in q'.sides && 0 <= i < |q'.sides[k]| ==> BornOf(q, q'.sides[k][i].addr) <= BornOf(q, k);
  }

  lemma NodesFree(q: Queue, producers: seq<Producer>, c: Consumer)
    requires NodesInv(q, producers, c) && c.FreeingNode?
    ensures NodesInv(FreeNode(q, c.head.addr), producers, CountingDown(c.buf))
  {
    var q' := FreeNode(q, c.head.addr);
    forall p | 0 <= p < |producers| && HasNode(producers[p])
      ensures OwnSide(q', producers[p])
    {
      assert OwnSide(q, producers[p]);
    }
  }

  lemma TailsFree(q: Queue, producers: seq<Producer>, addr: nat)
    requires TailsInv(q, producers)
    ensures TailsInv(FreeNode(q, addr), producers)
  {
    var q' := FreeNode(q, addr);
    forall p | 0 <= p < |producers|
      ensures TailKnown(q', producers[p])
    {
      assert TailKnown(q, producers[p]);
      SameListsTail(q, q', producers[p]);
    }
  }

  // ---- Threads that only change their place ----

  lemma NodesThread(q: Queue, producers: seq<Producer>, c: Consumer, p: nat, pc: Producer)
    requires NodesInv(q, producers, c) && p < |producers|
    requires HasNode(pc) == HasNode(producers[p])
      && (HasNode(pc) ==> pc.me == producers[p].me && pc.buf == producers[p].buf)
    ensures NodesInv(q, producers[p := pc], c)
  {
    var ps := producers[p := pc];
    forall r | 0 <= r < |ps| && HasNode(ps[r])
      ensures OwnSide(q, ps[r])
    {
      assert HasNode(producers[r]) && OwnSide(q, producers[r]);
    }
    forall k | k in q.sides
      ensures SideOwned(ps, k)
    {
      assert SideOwned(producers, k);
      var r :| 0 <= r < |producers| && HasNode(producers[r]) && producers[r].me.addr == k;
      assert HasNode(ps[r]) && ps[r].me.addr == k;
    }
  }

  lemma NodesConsumer(q: Queue, producers: seq<Producer>, c: Consumer, c': Consumer)
    requires NodesInv(q, producers, c) && !c'.FreeingNode?
    ensures NodesInv(q, producers, c')
  {
  }

  lemma TailsThread(q: Queue, producers: seq<Producer>, p: nat, pc: Producer)
    requires TailsInv(q, producers) && p < |producers| && TailKnown(q, pc)
    ensures TailsInv(q, producers[p := pc])
  {
  }

  lemma LoadedTailKnown(q: Queue, pc: Producer)
    requires ListsInv(q) && pc.Linking? && pc.tail == q.tail
    ensures TailKnown(q, pc)
  {
    assert Linked(q, 0, ListAt(q, 0));
    var i :| 0 <= i < |q.chain| && q.chain[i] == q.tail;
    assert Placed(q, q.chain[i].addr, 0);
  }

  lemma FailedTailKnown(q: Queue, pc: Producer, pc': Producer)
    requires ListsInv(q) && pc.Linking? && TailKnown(q, pc) && pc' == HelpLoading(pc.buf, pc.me, pc.tail)
      && NextOf(q, pc.tail) != NULL
    ensures TailKnown(q, pc')
  {
    forall k | IsList(q, k)
      ensures HasSuccessor(ListAt(q, k), pc')
    {
      assert Linked(q, k, ListAt(q, k));
    }
  }

  lemma HelpedTailKnown(q: Queue, pc: Producer, pc': Producer)
    requires ListsInv(q) && pc.HelpLoading? && TailKnown(q, pc)
    requires pc' == Helping(pc.buf, pc.me, pc.tail, NextOf(q, pc.tail))
    ensures TailKnown(q, pc')
  {
    forall k | IsList(q, k)
      ensures HasSuccessor(ListAt(q, k), pc')
    {
      assert Linked(q, k, ListAt(q, k)) && HasSuccessor(ListAt(q, k), pc);
    }
  }
}
