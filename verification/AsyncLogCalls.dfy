/** Calls return. Under every schedule of safe steps, whatever nodes the pool hands out, the threads that log
    finish their calls, even when the writer does not; and then the logger comes to rest with everything written
    if and only if mTail is at the end of the queue. */
module AsyncLogCalls {
  import opened AsyncLogModel
  import opened AsyncLogInvariant
  import opened AsyncLogLedger
  import opened AsyncLogSteps
  import opened AsyncLogProgress
  import opened AsyncLogReuse

  // ---- The measure ----

  /** The first place of a node in a list. */
  function PlaceOf(list: seq<Ref>, r: Ref): (i: nat)
    ensures i <= |list| && (i < |list| ==> list[i] == r) && forall j :: 0 <= j < i ==> list[j] != r
  {
    if list == [] || list[0] == r then 0 else 1 + PlaceOf(list[1..], r)
  }

  /** How far mTail is from the end. */
  function Lag(q: Queue): nat { |q.chain| - PlaceOf(q.chain, q.tail) }

  /** Compared lexicographically: the threads whose record is not linked, the lag of mTail, and the steps left to
      the threads before they have to see either change. */
  datatype CallMeasure = CallMeasure(unlinked: nat, lag: nat, work: nat)

  predicate Fewer(m: CallMeasure, m': CallMeasure) {
    || m.unlinked < m'.unlinked
    || (m.unlinked == m'.unlinked && (m.lag < m'.lag || (m.lag == m'.lag && m.work < m'.work)))
  }

  function Calls(s: State): CallMeasure {
    CallMeasure(Count(s.producers, Unlinked), Lag(s.q), TotalWork(s.producers, s.q.tail))
  }

  /** What a thread's step does to each part. */
  predicate Nears(s: State, s': State, p: nat)
    requires p < |s.producers| == |s'.producers|
  {
    var pc, pc' := s.producers[p], s'.producers[p];
    && s'.producers == s.producers[p := pc']
    && (|| Unlinked(pc') < Unlinked(pc)
        || (Unlinked(pc') == Unlinked(pc)
            && (Lag(s'.q) < Lag(s.q)
                || (Lag(s'.q) == Lag(s.q) && s'.q.tail == s.q.tail && Work(pc', s.q.tail) < Work(pc, s.q.tail)))))
  }

  lemma NearsIsFewer(s: State, s': State, p: nat)
    requires p < |s.producers| == |s'.producers| && Nears(s, s', p)
    ensures Fewer(Calls(s'), Calls(s))
  {
    CountUpdate(s.producers, p, s'.producers[p]);
    TotalWorkUpdate(s.producers, s.q.tail, p, s'.producers[p]);
    hide TotalWork, Count, Lag;
  }

  /** mTail moves to the node right after it. */
  lemma NextIsNearer(q: Queue, r: Ref)
    requires ListsInv(q) && MovesOn(q, r)
    ensures Lag(q.(tail := r)) < Lag(q)
  {
    assert Linked(q, 0, ListAt(q, 0));
    hide ListsInv, PlaceOf;
    var i :| 1 <= i < |q.chain| && q.chain[i] == r && q.chain[i - 1] == q.tail;
    OnlyPlace(q, i);
    OnlyPlace(q, i - 1);
  }

  lemma OnlyPlace(q: Queue, i: nat)
    requires i < |q.chain| && Linked(q, 0, ListAt(q, 0))
    ensures PlaceOf(q.chain, q.chain[i]) == i
  {
    hide PlaceOf;
    assert forall j :: 0 <= j < |q.chain| && q.chain[j] == q.chain[i] ==> j == i;
  }

  lemma CasTailNears(s: State, p: nat)
    requires ListsInv(s.q) && TailsInv(s.q, s.producers)
    requires p < |s.producers| && (s.producers[p].Helping? || s.producers[p].SwingingTail?)
    ensures |ProducerStep(s, p).producers| == |s.producers| && Nears(s, ProducerStep(s, p), p)
  {
    var pc := s.producers[p];
    assert TailKnown(s.q, pc);
    hide ListsInv, TailsInv, TailKnown, MovesOn, PlaceOf;
    CasTailCase(s.q, pc);
    if s.q.tail == pc.tail {
      NextIsNearer(s.q, if pc.Helping? then pc.next else pc.me);
    }
  }

  lemma LinkingNears(s: State, p: nat)
    requires p < |s.producers| && s.producers[p].Linking?
    ensures |ProducerStep(s, p).producers| == |s.producers| && Nears(s, ProducerStep(s, p), p)
  {
    hide PlaceOf, LinkNode;
  }

  lemma OthersNear(s: State, a: Action)
    requires Enabled(s, a) && (a.Alloc? || a.Produce?)
    requires !HoldsTail(s.producers[a.p]) || s.producers[a.p].HelpLoading?
    ensures |Apply(s, a).producers| == |s.producers| && Nears(s, Apply(s, a), a.p)
  {
    hide Nears;
    if a.Alloc? {
      AllocNears(s, a.p, a.addr);
    } else {
      ThreadNears(s, a.p);
      hide ProducerStep;
    }
  }

  lemma AllocNears(s: State, p: nat, addr: nat)
    requires Enabled(s, Alloc(p, addr))
    ensures
      var s' := Apply(s, Alloc(p, addr));
      |s'.producers| == |s.producers| && Nears(s, s', p)
  {
    hide Lag;
    SameLag(s.q, Apply(s, Alloc(p, addr)).q);
  }

  lemma ThreadNears(s: State, p: nat)
    requires Enabled(s, Produce(p)) && (!HoldsTail(s.producers[p]) || s.producers[p].HelpLoading?)
    ensures |ProducerStep(s, p).producers| == |s.producers| && Nears(s, ProducerStep(s, p), p)
  {
    hide PlaceOf, LinkNode, Messages, NewOwner, CasTail;
  }

  /** Every step of a thread that is no new call brings its calls nearer to their end. */
  lemma CallProgress(s: State, a: Action)
    requires Inv(s) && Enabled(s, a) && (a.Alloc? || a.Produce?)
    ensures Fewer(Calls(Apply(s, a)), Calls(s))
  {
    hide Nears, Calls, Fewer, PoolInv, BirthInv, NodesInv, ConsumerInv, OwnersInv, CountInv, StartInv, PipelineInv,
      PrintsInv, RecordsInv, ListsInv, TailsInv, Apply;
    if a.Produce? && s.producers[a.p].Linking? {
      LinkingNears(s, a.p);
    } else if a.Produce? && (s.producers[a.p].Helping? || s.producers[a.p].SwingingTail?) {
      CasTailNears(s, a.p);
    } else {
      OthersNear(s, a);
    }
    ApplyIs(s, a);
    NearsIsFewer(s, Apply(s, a), a.p);
  }

  lemma ApplyIs(s: State, a: Action)
    requires Enabled(s, a)
    ensures a.Produce? ==> Apply(s, a) == ProducerStep(s, a.p)
  {
    hide ProducerStep;
  }

  // ---- The writer ----

  /** Taking a node brings mTail no nearer to the end, nor farther from it. */
  lemma TakeKeepsLag(q: Queue)
    requires ListsInv(q) && |q.chain| >= 2 && q.tail != q.head
    ensures Lag(TakeHead(q, q.chain[1])) == Lag(q)
  {
    assert q.chain[0] == q.head;
    hide ListsInv;
  }

  lemma ConsumeKeepsCalls(s: State)
    requires Inv(s) && Enabled(s, Consume)
    ensures ConsumerStep(s).producers == s.producers && Calls(ConsumerStep(s)) == Calls(s)
  {
    hide ConsumerStep, TotalWork, Count, Lag;
    SameProducers(s);
    if s.consumer.SwingingHead? {
      TakingKeepsLag(s);
    } else {
      SameEnd(s);
      hide Inv;
      SameLag(s.q, ConsumerStep(s).q);
    }
  }

  lemma SameLag(q: Queue, q': Queue)
    requires q'.chain == q.chain && q'.tail == q.tail
    ensures Lag(q') == Lag(q)
  {
  }

  lemma SameProducers(s: State)
    requires Enabled(s, Consume)
    ensures ConsumerStep(s).producers == s.producers
  {
    hide TakeHead;
  }

  lemma TakingKeepsLag(s: State)
    requires Inv(s) && s.consumer.SwingingHead?
    ensures Lag(ConsumerStep(s).q) == Lag(s.q) && ConsumerStep(s).q.tail == s.q.tail
  {
    hide ListsInv, PoolInv, BirthInv, NodesInv, TailsInv, OwnersInv, CountInv, StartInv, PipelineInv, PrintsInv,
      RecordsInv, Lag;
    assert s.q.head == s.consumer.head && s.q.tail != s.q.head && |s.q.chain| >= 2 && s.consumer.next == s.q.chain[1];
    TakeKeepsLag(s.q);
  }

  // ---- Schedules ----

  /** A safe step that is no call, or nothing if there is none. */
  ghost predicate SafeOn(s: State, s': State) {
    (exists a :: Safe(s, a) && !IsCall(a) && s' == Apply(s, a)) || (s' == s && Quiescent(s))
  }

  lemma SafeOnStep(s: State, s': State)
    requires Inv(s) && SafeOn(s, s')
    ensures Inv(s') && MovesOrRests(s, s') && s'.h.calls == s.h.calls
    ensures Fewer(Calls(s'), Calls(s)) || (s'.producers == s.producers && Calls(s') == Calls(s))
  {
    hide Inv, Fewer, Calls, Quiescent;
    if a :| Safe(s, a) && !IsCall(a) && s' == Apply(s, a) {
      SafeIsEnabled(s, a);
      hide Safe;
      StepKeepsInv(s, a);
      OnlyCallsAsk(s, a);
      if a.Consume? {
        ConsumeKeepsCalls(s);
      } else {
        CallProgress(s, a);
      }
    }
  }

  lemma SafeIsEnabled(s: State, a: Action)
    requires Safe(s, a)
    ensures Enabled(s, a)
  {
  }

  lemma {:induction false} CallsFall(run: nat -> State, i: nat, k: nat)
    requires Inv(run(i)) && i <= k && forall j: nat :: SafeOn(run(j), run(j + 1))
    ensures Inv(run(k)) && run(k).h.calls == run(i).h.calls
    ensures Fewer(Calls(run(k)), Calls(run(i))) || Calls(run(k)) == Calls(run(i))
    decreases k
  {
    hide Inv, SafeOn, Calls;
    if i < k {
      CallsFall(run, i, k - 1);
      assert SafeOn(run(k - 1), run(k - 1 + 1));
      SafeOnStep(run(k - 1), run(k));
    }
  }

  /** While any call is in progress, some thread in a call moves sooner or later. */
  ghost predicate Fair(run: nat -> State) {
    forall k: nat :: AllIdle(run(k).producers) || exists j: nat :: j >= k && run(j + 1).producers != run(j).producers
  }

  lemma NextMove(run: nat -> State, i: nat) returns (j: nat)
    requires Fair(run) && !AllIdle(run(i).producers)
    ensures j >= i && run(j + 1).producers != run(j).producers
  {
    hide AllIdle;
    j :| j >= i && run(j + 1).producers != run(j).producers;
  }

  /** Every call returns, whatever nodes the pool hands out and however long the writer spins. */
  lemma CallsReturn(run: nat -> State, i: nat)
    requires Inv(run(i)) && Fair(run) && forall j: nat :: SafeOn(run(j), run(j + 1))
    ensures exists k: nat :: k >= i && Inv(run(k)) && AllIdle(run(k).producers) && run(k).h.calls == run(i).h.calls
  {
    hide Inv, SafeOn, Calls, Fair, AllIdle;
    var k := ReturnsFrom(run, i, Calls(run(i)));
  }

  lemma {:induction false} ReturnsFrom(run: nat -> State, i: nat, m: CallMeasure) returns (k: nat)
    requires Inv(run(i)) && Fair(run) && m == Calls(run(i)) && forall j: nat :: SafeOn(run(j), run(j + 1))
    ensures k >= i && Inv(run(k)) && AllIdle(run(k).producers) && run(k).h.calls == run(i).h.calls
    decreases m.unlinked, m.lag, m.work
  {
    hide Inv, SafeOn, Calls, Fair, AllIdle;
    k := i;
    if !AllIdle(run(i).producers) {
      var j := NextMove(run, i);
      CallsFall(run, i, j);
      assert SafeOn(run(j), run(j + 1));
      SafeOnStep(run(j), run(j + 1));
      k := ReturnsFrom(run, j + 1, Calls(run(j + 1)));
    }
  }

  /** The schedule from its state n on. */
  function From(run: nat -> State, n: nat): nat -> State { (k: nat) => run(n + k) }

  lemma FromMoves(run: nat -> State, n: nat)
    requires Inv(run(0)) && forall j: nat :: SafeOn(run(j), run(j + 1))
    ensures forall k: nat :: MovesOrRests(From(run, n)(k), From(run, n)(k + 1))
  {
    hide Inv, SafeOn, MovesOrRests, Calls, Fewer;
    forall k: nat
      ensures MovesOrRests(From(run, n)(k), From(run, n)(k + 1))
    {
      CallsFall(run, 0, n + k);
      assert SafeOn(run(n + k), run(n + k + 1));
      SafeOnStep(run(n + k), run(n + k + 1));
    }
  }

  /** From any state of a safe run, with no new calls: all calls return, and the logger comes to rest with
      everything written if and only if mTail is then at the end of the queue. */
  lemma SafeScheduleDrains(run: nat -> State) returns (n: nat)
    requires Inv(run(0)) && Fair(run) && forall j: nat :: SafeOn(run(j), run(j + 1))
    ensures AllIdle(run(n).producers)
    ensures (exists k: nat :: k >= n && Drained(run(k), run(0).h.calls)) <==> AtEnd(run(n).q)
  {
    hide Inv, SafeOn, Fair, AllIdle, Drained, AtEnd, MovesOrRests;
    n := Returned(run);
    FromMoves(run, n);
    var rest := From(run, n);
    assert rest(0) == run(n);
    DrainsExactly(rest);
    Shifted(run, n, rest, run(0).h.calls);
  }

  lemma Returned(run: nat -> State) returns (n: nat)
    requires Inv(run(0)) && Fair(run) && forall j: nat :: SafeOn(run(j), run(j + 1))
    ensures Inv(run(n)) && AllIdle(run(n).producers) && run(n).h.calls == run(0).h.calls
  {
    hide Inv, SafeOn, Fair, AllIdle;
    CallsReturn(run, 0);
    n :| Inv(run(n)) && AllIdle(run(n).producers) && run(n).h.calls == run(0).h.calls;
  }

  lemma Shifted(run: nat -> State, n: nat, rest: nat -> State, calls: seq<seq<string>>)
    requires rest == From(run, n)
    ensures (exists k: nat :: Drained(rest(k), calls)) <==> exists k: nat :: k >= n && Drained(run(k), calls)
  {
    hide Drained;
    if k: nat :| k >= n && Drained(run(k), calls) {
      assert rest(k - n) == run(k);
    }
    if k: nat :| Drained(rest(k), calls) {
      assert rest(k) == run(n + k) && n + k >= n;
    }
  }
}
