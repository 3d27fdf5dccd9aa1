/** The asynchronous logger as a step relation: any number of threads run LogMonitorAsync (or the
    synchronous LogMonitor), one thread runs asyncLogThread, and they meet in the lock-free queue
    of LockFreeQueue.h. Each step is one shared access of the source; the order of the steps of a
    thread is the order of its statements. Memory is sequentially consistent. */
module AsyncLogModel {
  import opened LogText

  const TWO_POW_16: int := 0x1_0000
  const TWO_POW_32: int := 0x1_0000_0000

  /** A pointer with 16 bits of an identifier in the bits above the 48-bit address. */
  datatype Ref = Ref(addr: nat, tag: nat)

  /** nullptr. No node has address 0. */
  const NULL: Ref := Ref(0, 0)

  /** A queue node: the tagged pointer to the next node and the record buffer it carries. */
  datatype Node = Node(next: Ref, data: nat)

  /** A formatted record, the thread that formatted it, and which of that thread's records it is. */
  datatype Message = Message(writer: nat, no: nat, text: string)

  /** Who has to pass on or delete a live record buffer. Bookkeeping only: no step reads it. */
  datatype Owner = Hand(producer: nat) | Slot(addr: nat) | ConsumerHand

  datatype Buffer = Buffer(message: Message, owner: Owner)

  /** One WriteFile on the monitor file. */
  datatype Chunk = Async(message: Message) | Sync(message: Message)

  /** Where a thread is in LogMonitorAsync and Enqueue. `me` is its tagged new node, `tail` is
      localMyTail. */
  datatype Producer =
    | Idle
    | Entering(buf: nat)                     // record built, Enqueue called
    | HavingId(buf: nat, tag: nat)           // mID incremented, node not allocated
    | LoadingTail(buf: nat, me: Ref)         // about to read mTail
    | Linking(buf: nat, me: Ref, tail: Ref)  // about to CAS tail->Next from nullptr to me
    | HelpLoading(buf: nat, me: Ref, tail: Ref)                    // about to read tail->Next
    | Helping(buf: nat, me: Ref, tail: Ref, next: Ref)     // about to CAS mTail to next
    | SwingingTail(me: Ref, tail: Ref)       // linked, about to CAS mTail from tail to me
    | CountingUp                             // about to increment mCount
    | Signalling                             // Enqueue returned, about to call SetEvent

  /** Where the writer thread is in asyncLogThread and TryDequeue. */
  datatype Consumer =
    | Waiting                                // in WaitForSingleObject
    | Checking                               // TryDequeue called, about to read mCount
    | LoadingHead
    | LoadingHeadTail(head: Ref)
    | LoadingNext(head: Ref, tail: Ref)
    | Deciding(head: Ref, tail: Ref, next: Ref)
    | LoadingData(head: Ref, next: Ref)
    | SwingingHead(head: Ref, next: Ref, buf: nat)
    | FreeingNode(head: Ref, buf: nat)       // head moved, the old dummy not yet in the pool
    | CountingDown(buf: nat)
    | Writing(buf: nat)                      // TryDequeue returned true, about to write
    | Deleting(buf: nat)

  /** The nodes of the queue and its node pool. The fields from `chain` on are histories, which no
      step reads. `chain` are the nodes from mHead on, and `sides` the nodes that hang, by their Next
      pointers, on a node an unfinished Enqueue has yet to link, under that node's address. `home` says
      for every node of a list which list it is in, 0 being the chain; `born` when a node was last
      handed out, as a number of allocations. */
  datatype Queue = Queue(
    heap: map<nat, Node>,        // every node ever allocated, type-stable
    pool: seq<nat>,              // mNodePool: the free nodes, the last one on top
    head: Ref, tail: Ref,
    chain: seq<Ref>, sides: map<nat, seq<Ref>>, home: map<nat, nat>, born: map<nat, nat>, allocs: nat
  )

  /** Histories: steps extend them and never read them. */
  datatype History = History(
    linked: seq<Message>,        // messages in the order their nodes were linked
    calls: seq<seq<string>>,     // records of each thread's LogMonitorAsync calls, in call order
    prints: seq<seq<string>>,    // records of each thread's LogMonitor calls, in call order
    enqueues: nat, signals: nat, wakes: nat, dequeues: nat  // completed Enqueue, SetEvent, waits; TryDequeue entries
  )

  datatype State = State(
    ready: bool,                 // static initialisation of the logger has finished
    q: Queue,
    id: nat, count: nat,         // mID and mCount
    event: bool,                 // mAsyncLogEvent, auto-reset
    buffers: map<nat, Buffer>,   // live WCHAR buffers
    monitor: seq<Chunk>,         // the monitor file after its byte-order mark
    producers: seq<Producer>,
    consumer: Consumer,
    h: History
  )

  datatype Action =
    | StaticInit                              // the definitions of Logger.cpp have all run
    | Call(p: nat, message: string, buf: nat) // LogMonitorAsync up to Enqueue
    | Print(p: nat, message: string)          // LogMonitor; LogCurrentTime, with "<time>"
    | Alloc(p: nat, addr: nat)                // mNodePool.Alloc and the node's set-up
    | Produce(p: nat)                         // any other step of thread p
    | Consume                                 // a step of the writer thread

  /** The initial state with n threads: the queue holds only its dummy node, the event is unset,
      and the writer thread, started by the constructor of mInstance, is at its wait. */
  function Init(n: nat): State {
    State(false, InitQueue(), 0, 0, false, map[], [],
          seq(n, _ => Idle), Waiting, History([], seq(n, _ => []), seq(n, _ => []), 0, 0, 0, 0))
  }

  function InitQueue(): Queue {
    Queue(map[1 := Node(NULL, 0)], [], Ref(1, 0), Ref(1, 0), [Ref(1, 0)], map[], map[1 := 0], map[1 := 0], 1)
  }

  function NextOf(q: Queue, r: Ref): Ref {
    if r.addr in q.heap then q.heap[r.addr].next else NULL
  }

  function DataOf(q: Queue, r: Ref): nat {
    if r.addr in q.heap then q.heap[r.addr].data else 0
  }

  function TextOf(buffers: map<nat, Buffer>, buf: nat): Message {
    if buf in buffers then buffers[buf].message else Message(0, 0, "")
  }

  function NewOwner(buffers: map<nat, Buffer>, buf: nat, owner: Owner): map<nat, Buffer> {
    if buf in buffers then buffers[buf := buffers[buf].(owner := owner)] else buffers
  }

  /** The messages of a list of nodes, in order. */
  function Messages(q: Queue, buffers: map<nat, Buffer>, refs: seq<Ref>): seq<Message> {
    seq(|refs|, i requires 0 <= i < |refs| => TextOf(buffers, DataOf(q, refs[i])))
  }

  // ---- The accesses that change the queue ----

  /** mNodePool.Alloc hands out the node on top of the pool, or a new one if there is none. */
  predicate CanAlloc(q: Queue, addr: nat) {
    if q.pool == [] then addr > 0 && addr !in q.heap else addr == q.pool[|q.pool| - 1]
  }

  /** The allocation and set-up of a node. */
  function AllocNode(q: Queue, me: Ref, buf: nat): Queue {
    q.(heap := q.heap[me.addr := Node(NULL, buf)],
       pool := if q.pool == [] then [] else q.pool[..|q.pool| - 1],
       sides := q.sides[me.addr := [me]], home := q.home[me.addr := me.addr],
       born := q.born[me.addr := q.allocs], allocs := q.allocs + 1)
  }

  /** The list that the node at an address is in. */
  function HomeOf(q: Queue, addr: nat): nat { if addr in q.home then q.home[addr] else 0 }

  /** The node of an unfinished Enqueue and those that hang on it. */
  function SideOf(q: Queue, me: Ref): seq<Ref> { if me.addr in q.sides then q.sides[me.addr] else [me] }

  /** The successful CAS of tail->Next. The new node, with all that hang on it, joins the list that the
      node at tail is in. */
  function LinkNode(q: Queue, me: Ref, tail: Ref): Queue {
    var heap := if tail.addr in q.heap then q.heap[tail.addr := q.heap[tail.addr].(next := me)] else q.heap;
    var k, moved := HomeOf(q, tail.addr), SideOf(q, me);
    q.(heap := heap,
       chain := if k == 0 then q.chain + moved else q.chain,
       sides := (if k != 0 && k in q.sides then q.sides[k := q.sides[k] + moved] else q.sides) - {me.addr},
       home := map a | a in q.home :: if q.home[a] == me.addr then k else q.home[a])
  }

  /** A CAS of mTail. */
  function CasTail(q: Queue, expected: Ref, desired: Ref): Queue {
    if q.tail == expected then q.(tail := desired) else q
  }

  /** The successful CAS of mHead. */
  function TakeHead(q: Queue, next: Ref): Queue {
    q.(head := next, chain := if q.chain != [] then q.chain[1..] else [], home := q.home - {q.head.addr})
  }

  function FreeNode(q: Queue, addr: nat): Queue { q.(pool := q.pool + [addr]) }

  predicate Enabled(s: State, a: Action) {
    match a
    case StaticInit => !s.ready
    case Call(p, _, buf) => s.ready && p < |s.producers| && p < |s.h.calls| && s.producers[p].Idle? && buf !in s.buffers
    case Print(p, _) => s.ready && p < |s.producers| && p < |s.h.prints| && s.producers[p].Idle?
    case Alloc(p, addr) =>
      p < |s.producers| && s.producers[p].HavingId? && CanAlloc(s.q, addr)
    case Produce(p) => p < |s.producers| && !s.producers[p].Idle? && !s.producers[p].HavingId?
    case Consume => !s.consumer.Waiting? || s.event
  }

  function Apply(s: State, a: Action): State
    requires Enabled(s, a)
  {
    match a
    case StaticInit => s.(ready := true)
    case Call(p, message, buf) =>
      var record := MonitorRecord(message);
      s.(producers := s.producers[p := Entering(buf)],
         buffers := s.buffers[buf := Buffer(Message(p, |s.h.calls[p]|, record), Hand(p))],
         h := s.h.(calls := s.h.calls[p := s.h.calls[p] + [record]]))
    case Print(p, message) =>
      var record := MonitorRecord(message);
      s.(monitor := s.monitor + [Sync(Message(p, |s.h.prints[p]|, record))],
         h := s.h.(prints := s.h.prints[p := s.h.prints[p] + [record]]))
    case Alloc(p, addr) =>
      var pc := s.producers[p];
      var me := Ref(addr, pc.tag);
      s.(q := AllocNode(s.q, me, pc.buf), producers := s.producers[p := LoadingTail(pc.buf, me)])
    case Produce(p) => ProducerStep(s, p)
    case Consume => ConsumerStep(s)
  }

  function ProducerStep(s: State, p: nat): State
    requires p < |s.producers| && !s.producers[p].Idle? && !s.producers[p].HavingId?
  {
    match s.producers[p]
    case Entering(buf) =>
      var id := (s.id + 1) % TWO_POW_32;
      s.(id := id, producers := s.producers[p := HavingId(buf, id % TWO_POW_16)])
    case LoadingTail(buf, me) =>
      s.(producers := s.producers[p := Linking(buf, me, s.q.tail)])
    case Linking(buf, me, tail) =>
      if NextOf(s.q, tail) == NULL then
        s.(q := LinkNode(s.q, me, tail),
           producers := s.producers[p := SwingingTail(me, tail)],
           buffers := NewOwner(s.buffers, buf, Slot(me.addr)),
           h := if HomeOf(s.q, tail.addr) == 0
             then s.h.(linked := s.h.linked + Messages(s.q, s.buffers, SideOf(s.q, me)))
                else s.h)
      else
        s.(producers := s.producers[p := HelpLoading(buf, me, tail)])
    case HelpLoading(buf, me, tail) =>
      s.(producers := s.producers[p := Helping(buf, me, tail, NextOf(s.q, tail))])
    case Helping(buf, me, tail, next) =>
      s.(q := CasTail(s.q, tail, next), producers := s.producers[p := LoadingTail(buf, me)])
    case SwingingTail(me, tail) =>
      s.(q := CasTail(s.q, tail, me), producers := s.producers[p := CountingUp])
    case CountingUp =>
      s.(count := (s.count + 1) % TWO_POW_32,
         producers := s.producers[p := Signalling], h := s.h.(enqueues := s.h.enqueues + 1))
    case Signalling =>
      s.(event := true, producers := s.producers[p := Idle], h := s.h.(signals := s.h.signals + 1))
  }

  function ConsumerStep(s: State): State
    requires !s.consumer.Waiting? || s.event
  {
    match s.consumer
    case Waiting => s.(event := false, consumer := Checking, h := s.h.(wakes := s.h.wakes + 1))
    case Checking =>
      s.(consumer := if s.count == 0 then Waiting else LoadingHead, h := s.h.(dequeues := s.h.dequeues + 1))
    case LoadingHead => s.(consumer := LoadingHeadTail(s.q.head))
    case LoadingHeadTail(head) => s.(consumer := LoadingNext(head, s.q.tail))
    case LoadingNext(head, tail) => s.(consumer := Deciding(head, tail, NextOf(s.q, head)))
    case Deciding(head, tail, next) =>
      s.(consumer := if head == tail then (if s.count == 0 then Waiting else LoadingHead)
                     else if next.addr == 0 then LoadingHead
                     else LoadingData(head, next))
    case LoadingData(head, next) => s.(consumer := SwingingHead(head, next, DataOf(s.q, next)))
    case SwingingHead(head, next, buf) =>
      if s.q.head == head then
        s.(q := TakeHead(s.q, next), consumer := FreeingNode(head, buf),
          buffers := NewOwner(s.buffers, buf, ConsumerHand))
      else s.(consumer := LoadingHead)
    case FreeingNode(head, buf) => s.(q := FreeNode(s.q, head.addr), consumer := CountingDown(buf))
    case CountingDown(buf) => s.(count := (s.count - 1) % TWO_POW_32, consumer := Writing(buf))
    case Writing(buf) => s.(monitor := s.monitor + [Async(TextOf(s.buffers, buf))], consumer := Deleting(buf))
    case Deleting(buf) => s.(buffers := s.buffers - {buf}, consumer := Checking)
  }

  /** A thread has read this tagged pointer from mTail and will yet use it to read or move on. */
  predicate Remembers(pc: Producer, r: Ref) {
    (pc.HelpLoading? || pc.Helping? || pc.SwingingTail?) && pc.tail == r
  }

  /** A thread is about to CAS the Next of the node at this address. */
  predicate AboutToLink(pc: Producer, addr: nat) { pc.Linking? && pc.tail.addr == addr }

  /** The tagged pointer is not given out while a thread still remembers it: its 16 bits of identifier
      have not come round. */
  ghost predicate NewTag(producers: seq<Producer>, me: Ref) {
    forall p :: 0 <= p < |producers| ==> !Remembers(producers[p], me)
  }

  /** The node is not given out while a thread is about to CAS its Next. */
  ghost predicate Released(producers: seq<Producer>, addr: nat) {
    forall p :: 0 <= p < |producers| ==> !AboutToLink(producers[p], addr)
  }

  /** Records linked and not yet taken, whether in the chain or hanging on a node to come. */
  function Queued(q: Queue): int { |q.home| - |q.sides| - 1 }

  /** The steps that keep every record: no remembered tagged pointer is given out again, and the counter
      of queued records, 32 bits wide in the source, is not asked to hold more. */
  ghost predicate Safe(s: State, a: Action) {
    && Enabled(s, a)
    && (a.Alloc? ==> NewTag(s.producers, Ref(a.addr, s.producers[a.p].tag)))
    && Queued(Apply(s, a).q) + 1 < TWO_POW_32
  }

  /** The safe steps that also keep the order: no node is given out whose Next a thread is about to CAS. */
  ghost predicate Tame(s: State, a: Action) {
    Safe(s, a) && (a.Alloc? ==> Released(s.producers, a.addr))
  }

  ghost predicate SafeStep(s: State, s': State) { exists a :: Safe(s, a) && s' == Apply(s, a) }

  ghost predicate TameStep(s: State, s': State) { exists a :: Tame(s, a) && s' == Apply(s, a) }

  /** Finite runs from an initial state with n threads. */
  ghost predicate SafeRun(n: nat, states: seq<State>) {
    && states != []
    && states[0] == Init(n)
    && forall i {:trigger states[i]} :: 0 < i < |states| ==> SafeStep(states[i - 1], states[i])
  }

  ghost predicate TameRun(n: nat, states: seq<State>) {
    && states != []
    && states[0] == Init(n)
    && forall i {:trigger states[i]} :: 0 < i < |states| ==> TameStep(states[i - 1], states[i])
  }

  /** Calls start new work; every other step carries on with work in progress. */
  predicate IsCall(a: Action) { a.Call? || a.Print? || a.StaticInit? }

  // Weights for counting threads by where they are.
  function Uncounted(pc: Producer): int { if pc.SwingingTail? || pc.CountingUp? then 1 else 0 }
  function Signallers(pc: Producer): int { if pc.Signalling? then 1 else 0 }
  /** Linked, and SetEvent still to come. */
  function Announced(pc: Producer): int { if pc.SwingingTail? || pc.CountingUp? || pc.Signalling? then 1 else 0 }
  function Unlinked(pc: Producer): int {
    if pc.Idle? || pc.SwingingTail? || pc.CountingUp? || pc.Signalling? then 0 else 1
  }
  predicate Unlinking(pc: Producer) { Unlinked(pc) == 1 }

  /** 1 while the consumer has moved the head but not yet decremented the counter. */
  function InFlight(c: Consumer): int {
    if c.FreeingNode? || c.CountingDown? then 1 else 0
  }
}
