/** What the asynchronous logger promises, for any number of threads: over all safe runs that nothing is
    lost or doubled, and over all tame runs that order is kept. */
module AsyncLogTheorems {
  import opened AsyncLogModel
  import opened AsyncLogInvariant
  import opened AsyncLogLedger
  import opened AsyncLogSteps
  import opened AsyncLogOrder
  import opened Interleaving
  import opened Sums

  lemma {:induction false} AnnouncedSum(producers: seq<Producer>)
    ensures Sum(producers, Announced) == Sum(producers, Uncounted) + Sum(producers, Signallers)
  {
    if producers != [] {
      AnnouncedSum(producers[..|producers| - 1]);
    }
  }

  /** No lost wake-up: while the writer thread waits and the event is unset, there are never more
      queued records than threads that have yet to call SetEvent for one. In particular a non-empty
      queue always has a wake-up on its way. */
  lemma NoLostWakeup(n: nat, states: seq<State>)
    requires SafeRun(n, states)
    ensures
      var s := states[|states| - 1];
      s.consumer.Waiting? && !s.event ==> |s.q.chain| - 1 <= Queued(s.q) <= Sum(s.producers, Announced)
    ensures
      var s := states[|states| - 1];
      |s.q.chain| > 1 ==>
        s.event || !s.consumer.Waiting? || exists p :: 0 <= p < |s.producers| && Announced(s.producers[p]) == 1
  {
    RunKeepsInv(n, states);
    var s := states[|states| - 1];
    hide SafeRun;
    WakeupBound(s);
    if Sum(s.producers, Announced) > 0 {
      var p := SumPositive(s.producers, Announced);
    }
  }

  lemma WakeupBound(s: State)
    requires Inv(s)
    ensures s.consumer.Waiting? && !s.event ==> |s.q.chain| - 1 <= Queued(s.q) <= Sum(s.producers, Announced)
  {
    hide NodesInv, TailsInv, ConsumerInv, OwnersInv, StartInv, PipelineInv, PrintsInv, RecordsInv, PoolInv, BirthInv,
      ListsInv, Queued;
    ChainFits(s.q);
    AnnouncedSum(s.producers);
  }

  // ---- Where every record is ----

  lemma {:induction false} ByConcat(xs: seq<Message>, ys: seq<Message>, p: nat)
    ensures By(xs + ys, p) == By(xs, p) + By(ys, p)
  {
    if ys == [] {
      assert xs + ys == xs;
    } else {
      var m := |ys| - 1;
      ByConcat(xs, ys[..m], p);
      assert (xs + ys)[..|xs + ys| - 1] == xs + ys[..m];
    }
  }

  /** The messages under way: the one in the consumer's hand and those in the queue. */
  function UnderWay(s: State): seq<Message> {
    InHand(s.buffers, s.consumer) + QueueMessages(s.q, s.buffers)
  }

  /** The record of call `no` of thread p is at place i. */
  predicate IsRecord(messages: seq<Message>, i: int, p: nat, no: nat) {
    0 <= i < |messages| && messages[i].writer == p && messages[i].no == no
  }

  ghost predicate OnceAmong(messages: seq<Message>, p: nat, no: nat) {
    exists i :: IsRecord(messages, i, p, no) && forall j :: IsRecord(messages, j, p, no) ==> j == i
  }

  predicate Holding(s: State, b: nat, p: nat, no: nat) {
    Pending(s.q, s.buffers, b) && s.buffers[b].message.writer == p && s.buffers[b].message.no == no
  }

  /** One live buffer holds the record and no other: a thread that has not linked it yet has it in hand, or
      its node hangs on the node of an unfinished Enqueue. */
  ghost predicate OncePending(s: State, p: nat, no: nat) {
    exists b :: Holding(s, b, p, no) && forall b' :: Holding(s, b', p, no) ==> b' == b
  }

  /** Exactly once: the record of every call is either once in the file or under way and in no pending
      buffer, or in one pending buffer and neither in the file nor under way; and whatever the file shows is
      the record of a call. No matter in what order the pool hands out its nodes. */
  lemma ExactlyOnce(n: nat, states: seq<State>, p: nat, no: nat)
    requires SafeRun(n, states)
    requires var calls := states[|states| - 1].h.calls; p < |calls| && no < |calls[p]|
    ensures
      var s := states[|states| - 1];
      var written := AsyncPart(s.monitor) + UnderWay(s);
      || (OnceAmong(written, p, no) && forall b :: !Holding(s, b, p, no))
      || (OncePending(s, p, no) && forall i :: !IsRecord(written, i, p, no))
    ensures
      var s := states[|states| - 1];
      var written := AsyncPart(s.monitor) + UnderWay(s);
      forall i :: 0 <= i < |written| ==> Genuine(s.h, written[i])
  {
    hide Inv, SafeRun;
    RunKeepsInv(n, states);
    var s := states[|states| - 1];
    UnderWayIsRest(s);
    OnePlace(s, p, no);
  }

  lemma UnderWayIsRest(s: State)
    requires Inv(s)
    ensures AsyncPart(s.monitor) + UnderWay(s) == s.h.linked && RecordsInv(s.q, s.buffers, s.h)
  {
    hide QueueInv, NodesInv, TailsInv, ConsumerInv, OwnersInv, CountInv, StartInv, PrintsInv, RecordsInv, AsyncPart,
      InHand, QueueMessages;
  }

  lemma OnePlace(s: State, p: nat, no: nat)
    requires RecordsInv(s.q, s.buffers, s.h) && p < |s.h.calls| && no < |s.h.calls[p]|
    ensures
      || (OnceAmong(s.h.linked, p, no) && forall b :: !Holding(s, b, p, no))
      || (OncePending(s, p, no) && forall i :: !IsRecord(s.h.linked, i, p, no))
    ensures forall i :: 0 <= i < |s.h.linked| ==> Genuine(s.h, s.h.linked[i])
  {
    if i :| IsRecord(s.h.linked, i, p, no) {
      forall j | IsRecord(s.h.linked, j, p, no)
        ensures j == i
      {
        assert SameCall(s.h.linked[i], s.h.linked[j]);
      }
      forall b
        ensures !Holding(s, b, p, no)
      {
        assert Pending(s.q, s.buffers, b) ==> !SameCall(s.h.linked[i], s.buffers[b].message);
      }
    } else {
      if HasLinked(s.h, p, no) {
        var i :| 0 <= i < |s.h.linked| && s.h.linked[i].writer == p && s.h.linked[i].no == no;
        assert IsRecord(s.h.linked, i, p, no);
      }
      assert HasPending(s.q, s.buffers, p, no);
      var b :| Pending(s.q, s.buffers, b) && s.buffers[b].message.writer == p && s.buffers[b].message.no == no;
      assert Holding(s, b, p, no);
    }
  }

  /** In call order: what a thread has asked to log is, in call order, what the file shows of it, then what
      is under way, then the record it is still enqueueing. Across threads the file and what is under way
      follow one linking order. */
  lemma InCallOrder(n: nat, states: seq<State>, p: nat)
    requires TameRun(n, states) && p < n
    ensures
      var s := states[|states| - 1];
      && p < |s.h.calls| && p < |s.producers|
      && By(AsyncPart(s.monitor), p) + By(UnderWay(s), p) + Unsent(s.buffers, s.producers[p]) == s.h.calls[p]
      && AsyncPart(s.monitor) + UnderWay(s) == s.h.linked
  {
    hide Inv, OrderInv, TameRun;
    RunKeepsOrder(n, states);
    var s := states[|states| - 1];
    UnderWayIsRest(s);
    ByConcat(AsyncPart(s.monitor), UnderWay(s), p);
  }

  // ---- Who has every buffer ----

  /** Who really holds a buffer, read off the program counters and the lists of nodes. */
  ghost predicate Holds(s: State, owner: Owner, buf: nat) {
    OwnerHolds(s.q, s.producers, s.consumer, buf, owner)
  }

  lemma HolderIsOwner(q: Queue, buffers: map<nat, Buffer>, producers: seq<Producer>, c: Consumer, buf: nat, o: Owner)
    requires OwnersInv(q, buffers, producers, c) && OwnerHolds(q, producers, c, buf, o)
    ensures OwnedBy(buffers, buf, o)
  {
    match o
    case Hand(p) => assert Unlinking(producers[p]);
    case Slot(addr) =>
      var k :| IsList(q, k) && InSlot(q, ListAt(q, k), addr, buf);
      assert SlotsOwned(q, buffers, ListAt(q, k));
      var i :| 1 <= i < |ListAt(q, k)| && ListAt(q, k)[i].addr == addr && DataOf(q, ListAt(q, k)[i]) == buf;
      assert OwnedBy(buffers, DataOf(q, ListAt(q, k)[i]), Slot(ListAt(q, k)[i].addr));
    case ConsumerHand =>
  }

  /** Single ownership: every live buffer has exactly one holder, and whatever a holder holds is
      live. So no buffer is read after its delete, deleted twice, or lost. */
  lemma SingleOwner(n: nat, states: seq<State>)
    requires SafeRun(n, states)
    ensures var s := states[|states| - 1]; forall b, o :: Holds(s, o, b) ==> b in s.buffers
    ensures var s := states[|states| - 1]; forall b, o, o' :: Holds(s, o, b) && Holds(s, o', b) ==> o == o'
    ensures var s := states[|states| - 1]; forall b :: b in s.buffers ==> exists o :: Holds(s, o, b)
  {
    hide Inv, SafeRun;
    RunKeepsInv(n, states);
    OwnersOf(states[|states| - 1]);
    OneHolder(states[|states| - 1]);
  }

  lemma OwnersOf(s: State)
    requires Inv(s)
    ensures OwnersInv(s.q, s.buffers, s.producers, s.consumer)
  {
    hide QueueInv, NodesInv, TailsInv, ConsumerInv, OwnersInv, CountInv, StartInv, PipelineInv, PrintsInv, RecordsInv;
  }

  lemma OneHolder(s: State)
    requires OwnersInv(s.q, s.buffers, s.producers, s.consumer)
    ensures forall b, o :: Holds(s, o, b) ==> b in s.buffers
    ensures forall b, o, o' :: Holds(s, o, b) && Holds(s, o', b) ==> o == o'
    ensures forall b :: b in s.buffers ==> exists o :: Holds(s, o, b)
  {
    hide OwnerHolds, SlotsOwned, HandsOwned;
    forall b, o | Holds(s, o, b)
      ensures OwnedBy(s.buffers, b, o)
    {
      HolderIsOwner(s.q, s.buffers, s.producers, s.consumer, b, o);
    }
    forall b | b in s.buffers
      ensures exists o :: Holds(s, o, b)
    {
      assert Holds(s, s.buffers[b].owner, b);
    }
  }

  /** Safe start-up: the writer thread is started before the queue is constructed, but it calls
      TryDequeue only after static initialisation and after some Enqueue has completed. */
  lemma SafeStartUp(n: nat, states: seq<State>)
    requires SafeRun(n, states)
    ensures var s := states[|states| - 1];
      !s.consumer.Waiting? || s.h.dequeues > 0 ==> s.ready && s.h.enqueues > 0
    ensures var s := states[|states| - 1];
      s.h.wakes + (if s.event then 1 else 0) <= s.h.signals <= s.h.enqueues
  {
    hide Inv, SafeRun;
    RunKeepsInv(n, states);
    StartOf(states[|states| - 1]);
    UncountedNonNegative(states[|states| - 1].producers);
  }

  lemma StartOf(s: State)
    requires Inv(s)
    ensures StartInv(s.ready, s.event, s.producers, s.consumer, s.h)
  {
    hide QueueInv, NodesInv, TailsInv, ConsumerInv, OwnersInv, CountInv, StartInv, PipelineInv, PrintsInv, RecordsInv;
  }

  // ---- The answer "empty" ----

  /** The step on which TryDequeue returns false. */
  predicate AnswersEmpty(s: State) {
    s.count == 0 && (s.consumer.Checking? || (s.consumer.Deciding? && s.consumer.head == s.consumer.tail))
  }

  /** No Enqueue is between its link and its increment of mCount. */
  ghost predicate AllCounted(producers: seq<Producer>) {
    forall p :: 0 <= p < |producers| ==> !producers[p].SwingingTail? && !producers[p].CountingUp?
  }

  lemma AllCountedSum(producers: seq<Producer>)
    ensures Sum(producers, Uncounted) >= 0
    ensures Sum(producers, Uncounted) == 0 <==> AllCounted(producers)
  {
    UncountedNonNegative(producers);
    if Sum(producers, Uncounted) > 0 {
      var p := SumPositive(producers, Uncounted);
    } else {
      forall p | 0 <= p < |producers|
        ensures !producers[p].SwingingTail? && !producers[p].CountingUp?
      {
        SumBoundsEach(producers, Uncounted, p);
      }
    }
  }

  lemma CountOf(s: State)
    requires Inv(s)
    ensures CountInv(s.q, s.count, s.event, s.producers, s.consumer) && ListsInv(s.q)
  {
    hide ListsInv, PoolInv, BirthInv, NodesInv, TailsInv, ConsumerInv, OwnersInv, CountInv, StartInv, PipelineInv,
      PrintsInv, RecordsInv;
  }

  /** TryDequeue's "empty" is not always true: mCount lags behind the links. When it answers so, the
      records linked are exactly as many as the Enqueues between their link and their increment; there are
      none if and only if there is no such Enqueue. */
  lemma EmptyAnswer(n: nat, states: seq<State>)
    requires SafeRun(n, states)
    requires AnswersEmpty(states[|states| - 1])
    ensures var s := states[|states| - 1]; |UnderWay(s)| <= Queued(s.q) == Sum(s.producers, Uncounted)
    ensures var s := states[|states| - 1]; Queued(s.q) == 0 <==> AllCounted(s.producers)
  {
    hide Inv, SafeRun, ListsInv, Queued;
    RunKeepsInv(n, states);
    var s := states[|states| - 1];
    CountOf(s);
    ChainFits(s.q);
    AllCountedSum(s.producers);
  }

  /** In tame runs all linked records are in the chain, so then "empty" is true if and only if there is no
      such Enqueue. */
  lemma EmptyAnswerExact(n: nat, states: seq<State>)
    requires TameRun(n, states)
    requires AnswersEmpty(states[|states| - 1])
    ensures var s := states[|states| - 1]; |QueueMessages(s.q, s.buffers)| == Sum(s.producers, Uncounted)
    ensures var s := states[|states| - 1]; QueueMessages(s.q, s.buffers) == [] <==> AllCounted(s.producers)
  {
    hide Inv, CallOrder, TameRun, SafeRun, ListsInv, Queued;
    TameRunIsSafe(n, states);
    EmptyAnswer(n, states);
    RunKeepsOrder(n, states);
    var s := states[|states| - 1];
    CountOf(s);
    hide CountInv;
    SinglesQueued(s.q);
    hide OrderInv, CallsInv, TailNear;
  }

  lemma SingleHome(q: Queue, a: nat)
    requires AllHome(q) && Named(q) && Singles(q) && a in q.home
    ensures a in Addresses(q.chain) + q.sides.Keys
  {
    assert AtHome(q, a);
    var k := q.home[a];
    var i :| 0 <= i < |ListAt(q, k)| && ListAt(q, k)[i].addr == a;
  }

  /** With nothing hanging on unlinked nodes, what is queued is the chain. */
  lemma SinglesQueued(q: Queue)
    requires ListsInv(q) && Singles(q)
    ensures Queued(q) == |q.chain| - 1
  {
    hide Linked, Singles, Addresses, AtHome;
    ChainAndSidesApart(q);
    assert Linked(q, 0, ListAt(q, 0));
    ChainSize(q, ListAt(q, 0));
    forall a | a in q.home
      ensures a in Addresses(q.chain) + q.sides.Keys
    {
      SingleHome(q, a);
    }
    hide ListsInv;
    HomeSize(q, Addresses(q.chain));
  }

  lemma ChainSize(q: Queue, list: seq<Ref>)
    requires Linked(q, 0, list)
    ensures |Addresses(list)| == |list|
  {
    AddressCount(list);
  }

  lemma HomeSize(q: Queue, chained: set<nat>)
    requires chained !! q.sides.Keys && chained + q.sides.Keys == q.home.Keys
    ensures |q.home| == |chained| + |q.sides|
  {
    assert |chained + q.sides.Keys| == |chained| + |q.sides.Keys|;
    assert |q.home| == |q.home.Keys| && |q.sides| == |q.sides.Keys|;
  }

  // ---- The monitor file ----

  function ChunkTexts(file: seq<Chunk>): seq<string> {
    seq(|file|, i requires 0 <= i < |file| => file[i].message.text)
  }

  function MessageTexts(messages: seq<Message>): seq<string> {
    seq(|messages|, i requires 0 <= i < |messages| => messages[i].text)
  }

  /** The asynchronous records followed by each thread's own records. */
  function Parts(file: seq<Chunk>, n: nat): seq<seq<string>> {
    [MessageTexts(AsyncPart(file))] + seq(n, p requires 0 <= p < n => SyncPart(file, p))
  }

  ghost predicate WritersBelow(file: seq<Chunk>, n: nat) {
    forall i :: 0 <= i < |file| && file[i].Sync? ==> file[i].message.writer < n
  }

  lemma PartsAppend(file: seq<Chunk>, chunk: Chunk, n: nat)
    requires chunk.Sync? ==> chunk.message.writer < n
    ensures
      var i := if chunk.Async? then 0 else chunk.message.writer + 1;
      var parts := Parts(file, n);
      Parts(file + [chunk], n) == parts[i := parts[i] + [chunk.message.text]]
  {
    hide Parts;
    PartCount(file, n);
    PartCount(file + [chunk], n);
    var i := if chunk.Async? then 0 else chunk.message.writer + 1;
    forall k | 0 <= k < n + 1
      ensures Parts(file + [chunk], n)[k] == if k == i then Parts(file, n)[k] + [chunk.message.text]
        else Parts(file, n)[k]
    {
      PartAppend(file, chunk, n, k);
    }
  }

  lemma PartCount(file: seq<Chunk>, n: nat)
    ensures |Parts(file, n)| == n + 1
  {
  }

  lemma PartAppend(file: seq<Chunk>, chunk: Chunk, n: nat, k: nat)
    requires k < n + 1
    ensures |Parts(file, n)| == |Parts(file + [chunk], n)| == n + 1
    ensures
      var i := if chunk.Async? then 0 else chunk.message.writer + 1;
      Parts(file + [chunk], n)[k] == if k == i then Parts(file, n)[k] + [chunk.message.text] else Parts(file, n)[k]
  {
    hide AsyncPart, SyncPart, MessageTexts;
    FileAppend(file, chunk);
    if k == 0 {
      TextsAppend(AsyncPart(file), chunk.message);
    } else {
      assert SyncPart(file + [chunk], k - 1) ==
        SyncPart(file, k - 1) + if chunk.Sync? && chunk.message.writer == k - 1 then [chunk.message.text] else [];
    }
  }

  lemma TextsAppend(messages: seq<Message>, m: Message)
    ensures MessageTexts(messages + [m]) == MessageTexts(messages) + [m.text]
      && MessageTexts(messages + []) == MessageTexts(messages)
  {
    assert messages + [] == messages;
  }

  lemma {:induction false} FileIsShuffle(file: seq<Chunk>, n: nat)
    requires WritersBelow(file, n)
    ensures Shuffle(Parts(file, n), ChunkTexts(file))
  {
    if file == [] {
    } else {
      var k := |file| - 1;
      var before, chunk := file[..k], file[k];
      assert file == before + [chunk];
      FileIsShuffle(before, n);
      FileAppend(before, chunk);
      var i := if chunk.Async? then 0 else chunk.message.writer + 1;
      var parts := Parts(before, n);
      PartsAppend(before, chunk, n);
      assert ChunkTexts(file) == ChunkTexts(before) + [chunk.message.text];
      ShuffleAppend(parts, ChunkTexts(before), i, chunk.message.text);
    }
  }

  lemma WritersStep(s: State, a: Action, n: nat)
    requires Enabled(s, a) && WritersBelow(s.monitor, n) && |s.producers| == n
    ensures WritersBelow(Apply(s, a).monitor, n)
  {
  }

  lemma {:induction false} RunWriters(n: nat, states: seq<State>)
    requires SafeRun(n, states)
    ensures WritersBelow(states[|states| - 1].monitor, n)
    decreases |states|
  {
    hide Inv, Apply;
    if |states| > 1 {
      SafePrefix(n, states);
      RunWriters(n, states[..|states| - 1]);
      RunKeepsInv(n, states[..|states| - 1]);
      hide SafeRun, WritersBelow;
      var a :| Safe(states[|states| - 2], a) && states[|states| - 1] == Apply(states[|states| - 2], a);
      WritersStep(states[|states| - 2], a, n);
    }
  }

  /** The monitor file is an interleaving of the asynchronous records in enqueue order with each
      thread's LogMonitor records in call order, and has nothing else. */
  lemma MonitorIsInterleaving(n: nat, states: seq<State>)
    requires SafeRun(n, states)
    ensures
      var s := states[|states| - 1];
      var parts := [MessageTexts(AsyncPart(s.monitor))] + s.h.prints;
      && AsyncPart(s.monitor) <= s.h.linked
      && Shuffle(parts, ChunkTexts(s.monitor)) && TotalLength(parts) == |s.monitor|
  {
    hide Inv, SafeRun, Shuffle;
    RunKeepsInv(n, states);
    RunWriters(n, states);
    var s := states[|states| - 1];
    UnderWayIsRest(s);
    PrintsOf(s);
    FileIsShuffle(s.monitor, n);
    PartsAreHistories(s);
    ShuffleLength(Parts(s.monitor, n), ChunkTexts(s.monitor));
  }

  lemma PrintsOf(s: State)
    requires Inv(s)
    ensures PrintsInv(s.monitor, s.producers, s.h)
  {
    hide QueueInv, NodesInv, TailsInv, ConsumerInv, OwnersInv, CountInv, StartInv, PipelineInv, PrintsInv, RecordsInv;
  }

  lemma PartsAreHistories(s: State)
    requires PrintsInv(s.monitor, s.producers, s.h)
    ensures Parts(s.monitor, |s.producers|) == [MessageTexts(AsyncPart(s.monitor))] + s.h.prints
  {
    assert seq(|s.producers|, p requires 0 <= p < |s.producers| => SyncPart(s.monitor, p)) == s.h.prints;
  }
}
