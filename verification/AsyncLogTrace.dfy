/** What a run does, said of the actions that make it: which texts threads ask to have logged, and which nodes the
    pool takes back and hands out. */
module AsyncLogTrace {
  import opened AsyncLogModel
  import opened AsyncLogLedger
  import opened AsyncLogSteps
  import opened AsyncLogOrder
  import opened AsyncLogTheorems
  import opened AsyncLogProgress
  import opened AsyncLogRuns
  import opened LogText

  /** A run with its actions, safe or not: action i leads from state i to the next. */
  ghost predicate Trace(states: seq<State>, actions: seq<Action>) {
    && |states| == |actions| + 1
    && forall i :: 0 <= i < |actions| ==>
         Enabled(states[i], actions[i]) && states[i + 1] == Apply(states[i], actions[i])
  }

  lemma ShorterTrace(states: seq<State>, actions: seq<Action>, k: nat)
    requires Trace(states, actions) && k <= |actions|
    ensures Trace(states[..k + 1], actions[..k])
  {
  }

  // ---- What is asked for, and what is in the file ----

  /** The monitor record of a message, for buffers of 512 characters: at most 511 of message and newline. */
  function RecordText(message: string): string {
    if |message| <= 510 then message + "\n" else message[..511]
  }

  lemma RecordIsText(message: string)
    ensures MonitorRecord(message) == RecordText(message)
  {
    NewlineSurvives(LOG_MESSAGE_MAX_LENGTH, message);
  }

  /** The texts thread p has asked LogMonitor to write, in order. */
  function Printed(actions: seq<Action>, p: nat): seq<string> {
    if actions == [] then [] else
    var n := |actions| - 1;
    Printed(actions[..n], p) + if actions[n].Print? && actions[n].p == p then [RecordText(actions[n].message)] else []
  }

  /** The texts it has asked LogMonitorAsync to write. */
  function Asked(actions: seq<Action>, p: nat): seq<string> {
    if actions == [] then [] else
    var n := |actions| - 1;
    Asked(actions[..n], p) + if actions[n].Call? && actions[n].p == p then [RecordText(actions[n].message)] else []
  }

  lemma ProducerRecords(s: State, p: nat)
    requires Enabled(s, Produce(p))
    ensures
      var s' := ProducerStep(s, p);
      s'.monitor == s.monitor && s'.h.calls == s.h.calls && |s'.producers| == |s.producers|
  {
    hide LinkNode, Messages, CasTail, NewOwner;
  }

  lemma ConsumerRecords(s: State, p: nat)
    requires Enabled(s, Consume)
    ensures
      var s' := ConsumerStep(s);
      SyncPart(s'.monitor, p) == SyncPart(s.monitor, p) && s'.h.calls == s.h.calls && s'.producers == s.producers
  {
    hide TakeHead, FreeNode, NewOwner, SyncPart;
    if s.consumer.Writing? {
      FileAppend(s.monitor, Async(TextOf(s.buffers, s.consumer.buf)));
    }
  }

  /** What one action adds for thread p. */
  lemma StepRecords(s: State, a: Action, p: nat)
    requires Enabled(s, a) && p < |s.h.calls|
    ensures
      var s' := Apply(s, a);
      && |s'.h.calls| == |s.h.calls|
      && SyncPart(s'.monitor, p) ==
           SyncPart(s.monitor, p) + (if a.Print? && a.p == p then [RecordText(a.message)] else [])
      && s'.h.calls[p] == s.h.calls[p] + (if a.Call? && a.p == p then [RecordText(a.message)] else [])
  {
    hide ProducerStep, ConsumerStep, AllocNode, SyncPart, MonitorRecord, RecordText;
    match a
    case Print(r, message) =>
      RecordIsText(message);
      FileAppend(s.monitor, Sync(Message(r, |s.h.prints[r]|, MonitorRecord(message))));
    case Call(r, message, _) =>
      RecordIsText(message);
    case Produce(r) =>
      ProducerRecords(s, r);
    case Consume =>
      ConsumerRecords(s, p);
    case _ =>
  }

  /** In every run, safe or not, the monitor file holds of LogMonitor exactly what each thread has asked it to
      write, in order, and the records of its LogMonitorAsync calls are exactly those it has asked for. */
  lemma {:induction false} RecordsOfActions(n: nat, states: seq<State>, actions: seq<Action>, p: nat)
    requires Trace(states, actions) && states[0] == Init(n) && p < n
    ensures
      var s := states[|states| - 1];
      && |s.h.calls| == n && s.h.calls[p] == Asked(actions, p) && SyncPart(s.monitor, p) == Printed(actions, p)
    decreases |actions|
  {
    hide Apply, SyncPart, RecordText;
    if actions == [] {
      StartRecords(n, p);
    } else {
      var k := |actions| - 1;
      ShorterTrace(states, actions, k);
      RecordsOfActions(n, states[..k + 1], actions[..k], p);
      StepRecords(states[k], actions[k], p);
    }
  }

  lemma StartRecords(n: nat, p: nat)
    requires p < n
    ensures |Init(n).h.calls| == n && Init(n).h.calls[p] == [] && SyncPart(Init(n).monitor, p) == []
  {
  }

  /** Everything asked for is written: when a tame run can go no further without a new call, the file holds of each
      thread what it has asked of either function, in order, and nothing else. */
  lemma AllAskedIsWritten(n: nat, states: seq<State>, actions: seq<Action>)
    requires Trace(states, actions) && TameRun(n, states) && Quiescent(states[|states| - 1])
    ensures
      var s := states[|states| - 1];
      forall p :: 0 <= p < n ==>
        By(AsyncPart(s.monitor), p) == Asked(actions, p) && SyncPart(s.monitor, p) == Printed(actions, p)
  {
    var s := states[|states| - 1];
    RunKeepsOrder(n, states);
    assert states[0] == Init(n);
    hide TameRun, Trace, Inv, By, AsyncPart, SyncPart, Asked, Printed, CallOrder, Quiescent, Steady;
    OrderlyParts(s);
    QuiescentInOrder(s);
    forall p | 0 <= p < n
      ensures By(AsyncPart(s.monitor), p) == Asked(actions, p) && SyncPart(s.monitor, p) == Printed(actions, p)
    {
      RecordsOfActions(n, states, actions, p);
    }
  }

  lemma OrderlyParts(s: State)
    requires Orderly(s)
    ensures Inv(s) && CallOrder(s)
  {
    hide Inv, CallOrder;
    SteadyIsInv(s);
  }

  /** Thread p can call LogMonitor, and its record is then the last in the file. */
  ghost predicate PrintsLast(s: State, p: nat, message: string) {
    && Enabled(s, Print(p, message))
    && var s' := Apply(s, Print(p, message));
    && |s'.monitor| == |s.monitor| + 1 && s'.monitor[..|s.monitor|] == s.monitor
    && var last := s'.monitor[|s.monitor|];
    last.Sync? && last.message.writer == p && last.message.text == RecordText(message)
  }

  /** LogMonitor alone: any idle thread can do so at any time once the logger is ready, by a safe step. */
  lemma PrintAlone(n: nat, s: State, p: nat, message: string)
    requires Reachable(n, false, s) && s.ready && p < |s.producers| && s.producers[p].Idle?
    ensures PrintsLast(s, p, message) && Safe(s, Print(p, message))
  {
    hide Reachable, Inv, Safe, PrintsLast, Enabled;
    ReachableInv(n, false, s);
    CanPrint(s, p, message);
    PrintIsSafe(s, Print(p, message));
    PrintOutcome(s, p, message);
  }

  lemma CanPrint(s: State, p: nat, message: string)
    requires Inv(s) && s.ready && p < |s.producers| && s.producers[p].Idle?
    ensures Enabled(s, Print(p, message))
  {
    hide Inv;
    PrintsOf(s);
  }

  lemma PrintIsSafe(s: State, a: Action)
    requires Inv(s) && Enabled(s, a) && a.Print?
    ensures Safe(s, a)
  {
    hide Inv, Queued;
    CountOf(s);
  }

  lemma PrintOutcome(s: State, p: nat, message: string)
    requires Enabled(s, Print(p, message))
    ensures PrintsLast(s, p, message)
  {
    hide MonitorRecord, RecordText;
    RecordIsText(message);
  }

  // ---- The pool ----

  /** The node freed last is the one that is handed out next, and handing it out leaves the pool as it was. */
  lemma LastFreedFirst(q: Queue, a: nat, b: nat, tag: nat, buf: nat)
    ensures CanAlloc(FreeNode(q, a), b) <==> b == a
    ensures AllocNode(FreeNode(q, a), Ref(a, tag), buf).pool == q.pool
  {
  }

  lemma PoolStep(s: State, a: Action)
    requires Enabled(s, a)
    ensures
      var s' := Apply(s, a);
      if a.Consume? && s.consumer.FreeingNode? then s'.q.pool == s.q.pool + [s.consumer.head.addr]
      else if a.Alloc? && s.q.pool != [] then s.q.pool == s'.q.pool + [a.addr]
      else s'.q.pool == s.q.pool
  {
    if a.Produce? {
      ProducePool(s, a.p);
      hide ProducerStep;
    } else {
      hide ProducerStep, NewOwner;
    }
  }

  lemma ProducePool(s: State, p: nat)
    requires Enabled(s, Produce(p))
    ensures ProducerStep(s, p).q.pool == s.q.pool
  {
    hide Messages, NewOwner, SideOf, CasTail, LinkNode;
    var pc := s.producers[p];
    if pc.Linking? {
      LinkPool(s.q, pc.me, pc.tail);
    } else if pc.Helping? {
      CasPool(s.q, pc.tail, pc.next);
    } else if pc.SwingingTail? {
      CasPool(s.q, pc.tail, pc.me);
    }
  }

  lemma LinkPool(q: Queue, me: Ref, tail: Ref)
    ensures LinkNode(q, me, tail).pool == q.pool
  {
  }

  lemma CasPool(q: Queue, expected: Ref, desired: Ref)
    ensures CasTail(q, expected, desired).pool == q.pool
  {
  }

  /** What was in the pool is still there, below, as long as the pool has not been smaller since. */
  lemma {:induction false} PoolBelow(states: seq<State>, actions: seq<Action>, i: nat, j: nat)
    requires Trace(states, actions) && i <= j < |states|
    requires forall k :: i <= k <= j ==> |states[k].q.pool| >= |states[i].q.pool|
    ensures states[i].q.pool <= states[j].q.pool
    decreases j
  {
    hide Apply, Enabled;
    if i < j {
      PoolBelow(states, actions, i, j - 1);
      PoolStep(states[j - 1], actions[j - 1]);
    }
  }

  /** In any run: a node that the writer frees is handed out by the first allocation that finds the pool as deep as
      that free left it, if the pool has not been smaller in between. So of nodes freed one after the other
      the last comes out first. */
  lemma PoolIsStack(states: seq<State>, actions: seq<Action>, i: nat, j: nat)
    requires Trace(states, actions) && i < j < |actions|
    requires actions[i].Consume? && states[i].consumer.FreeingNode? && actions[j].Alloc?
    requires forall k :: i < k <= j ==> |states[k].q.pool| >= |states[i + 1].q.pool|
    requires |states[j].q.pool| == |states[i + 1].q.pool|
    ensures actions[j].addr == states[i].consumer.head.addr
  {
    hide Apply;
    PoolBelow(states, actions, i + 1, j);
    PoolStep(states[i], actions[i]);
    PoolStep(states[j], actions[j]);
  }

  /** The pool takes a node back, or hands one out. */
  predicate TouchesPool(s: State, a: Action) { a.Alloc? || (a.Consume? && s.consumer.FreeingNode?) }

  /** Two nodes freed and then two handed out, with no other use of the pool in between: the second comes first. */
  lemma SecondFreedFirst(states: seq<State>, actions: seq<Action>, i: nat, i': nat, j: nat, j': nat)
    requires Trace(states, actions) && i < i' < j < j' < |actions|
    requires actions[i].Consume? && states[i].consumer.FreeingNode?
    requires actions[i'].Consume? && states[i'].consumer.FreeingNode? && actions[j].Alloc? && actions[j'].Alloc?
    requires forall k :: i < k < j' && k != i' && k != j ==> !TouchesPool(states[k], actions[k])
    ensures actions[j].addr == states[i'].consumer.head.addr && actions[j'].addr == states[i].consumer.head.addr
  {
    SamePool(states, actions, i + 1, i');
    SamePool(states, actions, i' + 1, j);
    SamePool(states, actions, j + 1, j');
    hide Apply;
    PoolStep(states[i], actions[i]);
    PoolStep(states[i'], actions[i']);
    PoolStep(states[j], actions[j]);
    PoolStep(states[j'], actions[j']);
  }

  lemma {:induction false} SamePool(states: seq<State>, actions: seq<Action>, i: nat, j: nat)
    requires Trace(states, actions) && i <= j < |states|
    requires forall k :: i <= k < j ==> !TouchesPool(states[k], actions[k])
    ensures forall k :: i <= k <= j ==> states[k].q.pool == states[i].q.pool
    decreases j
  {
    hide Apply, Enabled;
    if i < j {
      SamePool(states, actions, i, j - 1);
      PoolStep(states[j - 1], actions[j - 1]);
    }
  }

  // ---- The shared words ----

  /** How many Enqueue calls have taken an identifier, how many have counted their record, how many records have been
      counted off, and whether the event was set after it was last waited for. */
  datatype Words = Words(entered: nat, up: nat, down: nat, event: bool)

  function WordsAfter(states: seq<State>, actions: seq<Action>): Words
    requires |states| == |actions| + 1
  {
    if actions == [] then Words(0, 0, 0, false) else
    var n := |actions| - 1;
    NextWords(WordsAfter(states[..n + 1], actions[..n]), states[n], actions[n])
  }

  function NextWords(w: Words, s: State, a: Action): Words {
    match a
    case Produce(p) =>
      if p >= |s.producers| then w
      else if s.producers[p].Entering? then w.(entered := w.entered + 1)
      else if s.producers[p].CountingUp? then w.(up := w.up + 1)
      else if s.producers[p].Signalling? then w.(event := true)
      else w
    case Consume =>
      if s.consumer.Waiting? then w.(event := false)
      else if s.consumer.CountingDown? then w.(down := w.down + 1)
      else w
    case _ => w
  }

  ghost predicate WordsAre(w: Words, s: State) {
    && s.id == w.entered % 0x1_0000_0000 && s.count == (w.up - w.down) % 0x1_0000_0000 && (s.event <==> w.event)
  }

  lemma WrapNext(x: int, d: int)
    ensures (x % 0x1_0000_0000 + d) % 0x1_0000_0000 == (x + d) % 0x1_0000_0000
  {
    var y := x % 0x1_0000_0000 + d;
    assert x == 0x1_0000_0000 * (x / 0x1_0000_0000) + x % 0x1_0000_0000;
    assert x + d == 0x1_0000_0000 * (x / 0x1_0000_0000 + y / 0x1_0000_0000) + y % 0x1_0000_0000;
  }

  lemma ProducerWords(w: Words, s: State, p: nat)
    requires WordsAre(w, s) && Enabled(s, Produce(p))
    ensures WordsAre(NextWords(w, s, Produce(p)), ProducerStep(s, p))
  {
    hide LinkNode, CasTail, Messages, NewOwner;
    WrapNext(w.entered, 1);
    WrapNext(w.up - w.down, 1);
  }

  lemma ConsumerWords(w: Words, s: State)
    requires WordsAre(w, s) && Enabled(s, Consume)
    ensures WordsAre(NextWords(w, s, Consume), ConsumerStep(s))
  {
    hide TakeHead, FreeNode, NewOwner;
    WrapNext(w.up - w.down, -1);
  }

  lemma StepWords(w: Words, s: State, a: Action)
    requires WordsAre(w, s) && Enabled(s, a)
    ensures WordsAre(NextWords(w, s, a), Apply(s, a))
  {
    hide ProducerStep, ConsumerStep, AllocNode, MonitorRecord;
    if a.Produce? {
      ProducerWords(w, s, a.p);
    } else if a.Consume? {
      ConsumerWords(w, s);
    }
  }

  /** In every run, mID and mCount hold what has been counted, modulo 2^32, and the event is set exactly when it has
      been set since the writer last woke. */
  lemma {:induction false} SharedWords(n: nat, states: seq<State>, actions: seq<Action>)
    requires Trace(states, actions) && states[0] == Init(n)
    ensures WordsAre(WordsAfter(states, actions), states[|actions|])
    decreases |actions|
  {
    hide Apply, NextWords;
    if actions != [] {
      var k := |actions| - 1;
      ShorterTrace(states, actions, k);
      SharedWords(n, states[..k + 1], actions[..k]);
      StepWords(WordsAfter(states[..k + 1], actions[..k]), states[k], actions[k]);
    }
  }

  /** The tag of an Enqueue: how many have come before it, and one, modulo 65536. */
  lemma TagIsOrdinal(n: nat, states: seq<State>, actions: seq<Action>, i: nat)
    requires Trace(states, actions) && states[0] == Init(n) && i < |actions|
    requires actions[i].Produce? && states[i].producers[actions[i].p].Entering?
    ensures
      var pc := states[i].producers[actions[i].p];
      var entered := WordsAfter(states[..i + 1], actions[..i]).entered;
      |states[i + 1].producers| == |states[i].producers|
      && states[i + 1].producers[actions[i].p] == HavingId(pc.buf, (entered + 1) % 0x1_0000)
  {
    hide Apply, Enabled, WordsAfter;
    ShorterTrace(states, actions, i);
    SharedWords(n, states[..i + 1], actions[..i]);
    var entered := WordsAfter(states[..i + 1], actions[..i]).entered;
    assert Enabled(states[i], actions[i]) && states[i + 1] == Apply(states[i], actions[i]);
    EntersWith(states[i], actions[i].p);
    hide Trace;
    WrapNext(entered, 1);
    TagOf(entered + 1);
  }

  lemma EntersWith(s: State, p: nat)
    requires Enabled(s, Produce(p)) && s.producers[p].Entering?
    ensures
      var s' := Apply(s, Produce(p));
      |s'.producers| == |s.producers|
      && s'.producers[p] == HavingId(s.producers[p].buf, (s.id + 1) % 0x1_0000_0000 % 0x1_0000)
  {
  }

  lemma TagOf(x: nat)
    ensures x % 0x1_0000_0000 % 0x1_0000 == x % 0x1_0000
  {
    var a, y := x / 0x1_0000_0000, x % 0x1_0000_0000;
    assert x == 0x1_0000_0000 * a + y && y == 0x1_0000 * (y / 0x1_0000) + y % 0x1_0000;
    Remainder(x, 0x1_0000 * a + y / 0x1_0000, y % 0x1_0000);
  }

  lemma Remainder(x: int, q: int, r: int)
    requires x == 0x1_0000 * q + r && 0 <= r < 0x1_0000
    ensures x % 0x1_0000 == r
  {
  }

  /** The compare-and-swaps, in any state: each takes effect exactly if the word is still what it is compared with. */
  lemma SwapsExactly(s: State, p: nat)
    ensures s.consumer.SwingingHead? ==>
      var s', c := Apply(s, Consume), s.consumer;
      if s.q.head == c.head then s'.q.head == c.next && s'.consumer == FreeingNode(c.head, c.buf)
      else s'.q == s.q && s'.consumer == LoadingHead
    ensures p < |s.producers| && s.producers[p].Linking? && s.producers[p].tail.addr in s.q.heap ==>
      var s', pc := Apply(s, Produce(p)), s.producers[p];
      && |s'.producers| == |s.producers|
      && if s.q.heap[pc.tail.addr].next == Ref(0, 0) then
           && s'.q.heap == s.q.heap[pc.tail.addr := Node(pc.me, s.q.heap[pc.tail.addr].data)]
           && s'.producers[p] == SwingingTail(pc.me, pc.tail)
         else s'.q == s.q && s'.producers[p] == HelpLoading(pc.buf, pc.me, pc.tail)
    ensures p < |s.producers| && (s.producers[p].Helping? || s.producers[p].SwingingTail?) ==>
      var pc := s.producers[p];
      Apply(s, Produce(p)).q ==
        if s.q.tail == pc.tail then s.q.(tail := if pc.Helping? then pc.next else pc.me) else s.q
  {
  }
}
