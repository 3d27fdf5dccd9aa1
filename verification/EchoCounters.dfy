/** Conservation laws of the echo test's shared counters and packet references, over all runs: tame
    or not, with any number of clients, failed connects and reports. */
module EchoCounters {
  import opened EchoModel
  import opened Sums

  // ---- Weights: what a connection's threads have done but not yet counted ----

  /** In OnReceive between its g_echoRecvCount increment and SendPacket. */
  function BeforeSend(link: Link): int {
    if link.pc.TakingTick? || link.pc.WritingTick? || link.pc.Sending? then 1 else 0
  }

  /** In OnReceive with the packet classified as an RTT or an error and g_echoRecvCount still to come. */
  function Classified(link: Link): int {
    if link.pc.FreeingPacket? || link.pc.CountingRecv? then 1 else 0
  }

  /** In OnDisconnect between the two counters of a loss, or between the two of a new connection. */
  function Straddling(link: Link): int {
    if link.pc.CountingDown? || link.pc.CountingTotal? then 1 else 0
  }

  function ThreadRefs(pc: Pc): int {
    match pc
    case Comparing(_) => 1
    case CountingError => 1
    case TakingRtt => 1
    case AddingRtt => 1
    case CountingRtt => 1
    case FreeingPacket => 1
    case WritingTick => 1
    case Sending(_) => 1
    case StoringTick(_, _) => 1
    case SendingFirst(_) => 1
    case FreeingFirst => 1
    case _ => 0
  }

  /** Packet references the content handlers of a connection hold. */
  function Refs(link: Link): int {
    ThreadRefs(link.pc) + if link.server.Echoing? then 1 else 0
  }

  function Added(c: Client): int { c.rttTotal }

  /** What the threads of a state have done but not yet counted: OnReceive calls between their two counts;
      packets classified and not counted; threads between the two counters of a loss or of a new
      connection; packet references held. */
  datatype Weights = Weights(before: int, classified: int, straddling: int, refs: int)

  function Held(s: State): Weights {
    Weights(Sum(s.links, BeforeSend) + s.counting, Sum(s.links, Classified), Sum(s.links, Straddling),
            Sum(s.links, Refs) + s.counting + s.freeing + s.serverFreeing)
  }

  /** The laws, counted without wrap-around, from a state with w0 on. */
  ghost predicate LedgerInv(w0: Weights, s: State) {
    && s.t.recvs - s.t.sends == Held(s).before - w0.before
    && s.t.rtts + s.t.errors - s.t.recvs == Held(s).classified - w0.classified
    && s.t.total + s.t.downs - s.t.connects == w0.straddling - Held(s).straddling
    && s.t.taken - s.t.freed == Held(s).refs - w0.refs
    && s.t.rttSum == Sum(s.clients, Added)
  }

  /** Each counter is its initial value plus what has been counted, modulo its width; the two per-second
      counters also minus what main has taken out. */
  predicate CountersInv(g0: Counters, s: State) {
    && s.g.total == Wrap32(g0.total + s.t.total)
    && s.g.connectTotal == Wrap64(g0.connectTotal + s.t.connects)
    && s.g.connectFail == Wrap64(g0.connectFail + s.t.fails)
    && s.g.down == Wrap64(g0.down + s.t.downs)
    && s.g.error == Wrap64(g0.error + s.t.errors)
    && s.g.rttSum == Wrap64(g0.rttSum + s.t.rttSum)
    && s.g.rttCount == Wrap64(g0.rttCount + s.t.rtts)
    && s.g.send == Wrap32(g0.send + s.t.sends - s.t.printedSend)
    && s.g.recv == Wrap32(g0.recv + s.t.recvs - s.t.printedRecv)
  }

  lemma Wrap32Add(x: int, d: int)
    ensures Wrap32(Wrap32(x) + d) == Wrap32(x + d)
  {
    var y := Wrap32(x) + d;
    assert x == TWO_POW_32 * (x / TWO_POW_32) + Wrap32(x);
    assert x + d == TWO_POW_32 * (x / TWO_POW_32 + y / TWO_POW_32) + Wrap32(y);
  }

  lemma Wrap64Add(x: int, d: int)
    ensures Wrap64(Wrap64(x) + d) == Wrap64(x + d)
  {
    var y := Wrap64(x) + d;
    assert x == TWO_POW_64 * (x / TWO_POW_64) + Wrap64(x);
    assert x + d == TWO_POW_64 * (x / TWO_POW_64 + y / TWO_POW_64) + Wrap64(y);
  }

  lemma WrapTaken(x: int)
    ensures Wrap32(x - Wrap32(x)) == 0
  {
    assert x - Wrap32(x) == TWO_POW_32 * (x / TWO_POW_32);
  }

  lemma OnReceiveCounters(g0: Counters, s: State, k: nat)
    requires CountersInv(g0, s) && k < |s.links| && s.links[k].client < |s.clients| && InReceive(s.links[k].pc)
    ensures CountersInv(g0, OnReceiveStep(s, k))
  {
    hide Wrap32, Wrap64, Put;
    Wrap64Add(g0.error + s.t.errors, 1);
    Wrap64Add(g0.rttCount + s.t.rtts, 1);
    Wrap32Add(g0.recv + s.t.recvs - s.t.printedRecv, 1);
    Wrap64Add(g0.rttSum + s.t.rttSum, s.clients[s.links[k].client].lastRtt);
  }

  lemma OnDisconnectCounters(g0: Counters, s: State, k: nat, ok: bool)
    requires CountersInv(g0, s) && Enabled(s, Work(k, ok)) && !InReceive(s.links[k].pc)
    ensures CountersInv(g0, OnDisconnectStep(s, k, ok))
  {
    var pc := s.links[k].pc;
    if pc.Dropped? || pc.CountingDown? || pc.CountingFail? || pc.CountingConnect? || pc.CountingTotal? {
      DisconnectCounts(g0, s, k, ok);
    } else {
      hide OnDisconnectStep, Wrap32, Wrap64;
      CountsNothing(s, k, ok);
    }
  }

  lemma CountsNothing(s: State, k: nat, ok: bool)
    requires Enabled(s, Work(k, ok)) && !InReceive(s.links[k].pc)
    requires
      var pc := s.links[k].pc;
      !pc.Dropped? && !pc.CountingDown? && !pc.CountingFail? && !pc.CountingConnect? && !pc.CountingTotal?
    ensures var s' := OnDisconnectStep(s, k, ok); s'.g == s.g && s'.t == s.t.(taken := s'.t.taken, freed := s'.t.freed)
  {
    hide Wrap32, Wrap64, Put, Target, Tick;
  }

  lemma DisconnectCounts(g0: Counters, s: State, k: nat, ok: bool)
    requires CountersInv(g0, s) && Enabled(s, Work(k, ok))
    requires
      var pc := s.links[k].pc;
      pc.Dropped? || pc.CountingDown? || pc.CountingFail? || pc.CountingConnect? || pc.CountingTotal?
    ensures CountersInv(g0, OnDisconnectStep(s, k, ok))
  {
    hide Wrap32, Wrap64, SendTo, Target, Tick;
    Wrap32Add(g0.total + s.t.total, 1);
    Wrap32Add(g0.total + s.t.total, -1);
    Wrap64Add(g0.connectTotal + s.t.connects, 1);
    Wrap64Add(g0.connectFail + s.t.fails, 1);
    Wrap64Add(g0.down + s.t.downs, 1);
  }

  lemma CountersStep(g0: Counters, s: State, a: Action)
    requires CountersInv(g0, s) && Enabled(s, a)
    ensures CountersInv(g0, Apply(s, a))
  {
    hide Apply, CountersInv;
    if a.Work? {
      WorkCounters(g0, s, a.k, a.ok);
    } else if a.CountSend? || a.ReportSend? || a.ReportRecv? {
      SendCounters(g0, s, a);
    } else {
      TransportCountsNothing(s, a);
      SameCounters(g0, s, Apply(s, a));
    }
  }

  lemma WorkCounters(g0: Counters, s: State, k: nat, ok: bool)
    requires CountersInv(g0, s) && Enabled(s, Work(k, ok))
    ensures CountersInv(g0, Apply(s, Work(k, ok)))
  {
    hide OnReceiveStep, OnDisconnectStep, CountersInv;
    if InReceive(s.links[k].pc) {
      OnReceiveCounters(g0, s, k);
    } else {
      OnDisconnectCounters(g0, s, k, ok);
    }
  }

  /** A tail's count, and what main's report takes out. */
  lemma SendCounters(g0: Counters, s: State, a: Action)
    requires CountersInv(g0, s) && Enabled(s, a) && (a.CountSend? || a.ReportSend? || a.ReportRecv?)
    ensures CountersInv(g0, Apply(s, a))
  {
    hide Wrap32, Wrap64;
    Wrap32Add(g0.send + s.t.sends - s.t.printedSend, 1);
    WrapTaken(g0.send + s.t.sends - s.t.printedSend);
    WrapTaken(g0.recv + s.t.recvs - s.t.printedRecv);
  }

  lemma SameCounters(g0: Counters, s: State, s': State)
    requires CountersInv(g0, s) && s'.g == s.g && s'.t == s.t.(taken := s'.t.taken, freed := s'.t.freed)
    ensures CountersInv(g0, s')
  {
    hide Wrap32, Wrap64;
  }

  lemma TransportCountsNothing(s: State, a: Action)
    requires Enabled(s, a) && !a.Work? && !a.CountSend? && !a.ReportSend? && !a.ReportRecv?
    ensures var s' := Apply(s, a); s'.g == s.g && s'.t == s.t.(taken := s'.t.taken, freed := s'.t.freed)
  {
    hide Wrap32, Wrap64, Step, Read, Left;
  }

  // ---- The laws step by step ----

  lemma PutWeight(link: Link, tick: nat)
    ensures BeforeSend(Put(link, tick)) == BeforeSend(link) && Classified(Put(link, tick)) == Classified(link)
    ensures Straddling(Put(link, tick)) == Straddling(link) && Refs(Put(link, tick)) == Refs(link)
  {
  }

  /** The sums over the connections. */
  function Weigh(links: seq<Link>): Weights {
    Weights(Sum(links, BeforeSend), Sum(links, Classified), Sum(links, Straddling), Sum(links, Refs))
  }

  function Plus(w: Weights, before: Link, after: Link): Weights {
    Weights(w.before - BeforeSend(before) + BeforeSend(after), w.classified - Classified(before) + Classified(after),
            w.straddling - Straddling(before) + Straddling(after), w.refs - Refs(before) + Refs(after))
  }

  lemma WeighUpdate(links: seq<Link>, k: nat, link: Link)
    requires k < |links|
    ensures Weigh(links[k := link]) == Plus(Weigh(links), links[k], link)
  {
    SumUpdate(links, k, link, BeforeSend);
    SumUpdate(links, k, link, Classified);
    SumUpdate(links, k, link, Straddling);
    SumUpdate(links, k, link, Refs);
  }

  lemma WeighAppend(links: seq<Link>, client: nat)
    ensures Weigh(links + [Link(client, Receiving, true, [], Quiet, [], 0, 0)]) == Weigh(links)
  {
    var link := Link(client, Receiving, true, [], Quiet, [], 0, 0);
    SumAppend(links, link, BeforeSend);
    SumAppend(links, link, Classified);
    SumAppend(links, link, Straddling);
    SumAppend(links, link, Refs);
  }

  lemma WeighSend(s: State, target: int, tick: nat)
    requires -1 <= target < |s.links|
    ensures Weigh(SendTo(s, target, tick).links) == Weigh(s.links)
  {
    if target >= 0 {
      WeighUpdate(s.links, target, Put(s.links[target], tick));
      PutWeight(s.links[target], tick);
    }
  }

  /** A thread's step changes the sums as the move of its own connection does. */
  lemma WeighStep(s: State, k: nat, ok: bool)
    requires Enabled(s, Work(k, ok))
    ensures
      var s' := Step(s, k, ok);
      |s'.links| >= |s.links| && Weigh(s'.links) == Plus(Weigh(s.links), s.links[k], s'.links[k])
  {
    hide Weigh, Plus, Step;
    var pc := s.links[k].pc;
    if pc.Sending? || pc.SendingFirst? {
      SendingWeight(s, k, ok);
    } else if pc.Connecting? {
      ConnectingWeight(s, k, ok);
    } else {
      OneLinkMoves(s, k, ok);
      WeighUpdate(s.links, k, Step(s, k, ok).links[k]);
    }
  }

  lemma OneLinkMoves(s: State, k: nat, ok: bool)
    requires Enabled(s, Work(k, ok)) && !s.links[k].pc.Sending? && !s.links[k].pc.SendingFirst?
      && !s.links[k].pc.Connecting?
    ensures var s' := Step(s, k, ok); |s'.links| == |s.links| && s'.links == s.links[k := s'.links[k]]
  {
    hide OnReceiveStep, OnDisconnectStep;
    if InReceive(s.links[k].pc) {
      OnReceiveMoves(s, k);
    } else {
      OnDisconnectMoves(s, k, ok);
    }
  }

  lemma OnReceiveMoves(s: State, k: nat)
    requires k < |s.links| && InReceive(s.links[k].pc) && s.links[k].client < |s.clients| && !s.links[k].pc.Sending?
    ensures var s' := OnReceiveStep(s, k); |s'.links| == |s.links| && s'.links == s.links[k := s'.links[k]]
  {
    hide Wrap32, Wrap64, Tick, SendTo, Target;
  }

  lemma OnDisconnectMoves(s: State, k: nat, ok: bool)
    requires Enabled(s, Work(k, ok)) && !InReceive(s.links[k].pc) && !s.links[k].pc.SendingFirst?
      && !s.links[k].pc.Connecting?
    ensures var s' := OnDisconnectStep(s, k, ok); |s'.links| == |s.links| && s'.links == s.links[k := s'.links[k]]
  {
    hide InReceive, Wrap32, Wrap64, Tick, SendTo, Target;
  }

  lemma SendingWeight(s: State, k: nat, ok: bool)
    requires Enabled(s, Work(k, ok)) && (s.links[k].pc.Sending? || s.links[k].pc.SendingFirst?)
    ensures
      var s' := Step(s, k, ok);
      |s'.links| == |s.links| && Weigh(s'.links) == Plus(Weigh(s.links), s.links[k], s'.links[k])
  {
    hide Weigh;
    var pc := s.links[k].pc;
    var moved := s.links[k].(pc := if pc.Sending? then Receiving else FreeingFirst);
    var s1 := SetLink(s, k, moved);
    var target := Target(s, s.clients[s.links[k].client]);
    WeighUpdate(s.links, k, moved);
    WeighSend(s1, target, pc.tick);
    PutWeight(moved, pc.tick);
  }

  lemma ConnectingWeight(s: State, k: nat, ok: bool)
    requires Enabled(s, Work(k, ok)) && s.links[k].pc.Connecting?
    ensures
      var s' := Step(s, k, ok);
      |s'.links| >= |s.links| && Weigh(s'.links) == Plus(Weigh(s.links), s.links[k], s'.links[k])
  {
    hide Weigh;
    var s' := Step(s, k, ok);
    var moved := s.links[k].(pc := s'.links[k].pc);
    WeighUpdate(s.links, k, moved);
    WeighAppend(s.links[k := moved], s.links[k].client);
  }

  /** A statement moves the unwrapped counts as it moves its connection's weights. */
  predicate CountsMove(s: State, s': State, k: nat) {
    && k < |s.links| <= |s'.links|
    && var l, l' := s.links[k], s'.links[k];
    && (s'.t.recvs - s'.t.sends) - (s.t.recvs - s.t.sends) == BeforeSend(l') - BeforeSend(l) + s'.counting - s.counting
    && (s'.t.rtts + s'.t.errors - s'.t.recvs) - (s.t.rtts + s.t.errors - s.t.recvs) == Classified(l') - Classified(l)
    && (s'.t.total + s'.t.downs - s'.t.connects) - (s.t.total + s.t.downs - s.t.connects)
       == Straddling(l) - Straddling(l')
  }

  predicate RefsMove(s: State, s': State, k: nat) {
    && k < |s.links| <= |s'.links|
    && (s'.t.taken - s'.t.freed) - (s.t.taken - s.t.freed)
       == Refs(s'.links[k]) - Refs(s.links[k]) + s'.counting - s.counting
    && s'.freeing == s.freeing && s'.serverFreeing == s.serverFreeing
  }

  predicate RttMoves(s: State, s': State) {
    s'.t.rttSum - s.t.rttSum == Sum(s'.clients, Added) - Sum(s.clients, Added)
  }

  lemma OnReceiveCounts(s: State, k: nat)
    requires k < |s.links| && s.links[k].client < |s.clients| && InReceive(s.links[k].pc)
    ensures CountsMove(s, OnReceiveStep(s, k), k)
  {
    hide Wrap32, Wrap64, Tick;
  }

  lemma OnReceiveRefs(s: State, k: nat)
    requires k < |s.links| && s.links[k].client < |s.clients| && InReceive(s.links[k].pc)
    ensures RefsMove(s, OnReceiveStep(s, k), k)
  {
    hide Wrap32, Wrap64, Tick;
  }

  lemma OnReceiveRtt(s: State, k: nat)
    requires k < |s.links| && s.links[k].client < |s.clients| && InReceive(s.links[k].pc)
    ensures RttMoves(s, OnReceiveStep(s, k))
  {
    hide Wrap32, Wrap64, Tick, Put;
    var c := s.links[k].client;
    SumUpdate(s.clients, c, OnReceiveStep(s, k).clients[c], Added);
  }

  predicate Plain(pc: Pc) { !InReceive(pc) && !pc.SendingFirst? && !pc.Connecting? }

  lemma PlainCounts(s: State, k: nat, ok: bool)
    requires Enabled(s, Work(k, ok)) && Plain(s.links[k].pc)
    ensures CountsMove(s, OnDisconnectStep(s, k, ok), k)
  {
    hide Wrap32, Wrap64, Tick, SendTo, Target;
    match s.links[k].pc
    case Dropped =>
    case CountingDown =>
    case CountingFail =>
    case MarkingConnected =>
    case ReadingClock =>
    case StoringTick(_, _) =>
    case FreeingFirst =>
    case CountingConnect =>
    case CountingTotal =>
  }

  lemma PlainRefs(s: State, k: nat, ok: bool)
    requires Enabled(s, Work(k, ok)) && Plain(s.links[k].pc)
    ensures RefsMove(s, OnDisconnectStep(s, k, ok), k)
  {
    hide Wrap32, Wrap64, Tick, SendTo, Target;
    match s.links[k].pc
    case Dropped =>
    case CountingDown =>
    case CountingFail =>
    case MarkingConnected =>
    case ReadingClock =>
    case StoringTick(_, _) =>
    case FreeingFirst =>
    case CountingConnect =>
    case CountingTotal =>
  }

  lemma FirstSendMoves(s: State, k: nat, ok: bool)
    requires Enabled(s, Work(k, ok)) && (s.links[k].pc.SendingFirst? || s.links[k].pc.Connecting?)
    ensures CountsMove(s, OnDisconnectStep(s, k, ok), k) && RefsMove(s, OnDisconnectStep(s, k, ok), k)
  {
    hide OnDisconnectStep, CountsMove, RefsMove;
    if s.links[k].pc.Connecting? {
      ConnectMoves(s, k, ok);
    } else {
      SendMoves(s, k, ok);
    }
  }

  lemma ConnectMoves(s: State, k: nat, ok: bool)
    requires Enabled(s, Work(k, ok)) && s.links[k].pc.Connecting?
    ensures CountsMove(s, OnDisconnectStep(s, k, ok), k) && RefsMove(s, OnDisconnectStep(s, k, ok), k)
  {
    hide Wrap32, Wrap64, Tick, SendTo, Target;
  }

  lemma SendMoves(s: State, k: nat, ok: bool)
    requires Enabled(s, Work(k, ok)) && s.links[k].pc.SendingFirst?
    ensures CountsMove(s, OnDisconnectStep(s, k, ok), k) && RefsMove(s, OnDisconnectStep(s, k, ok), k)
  {
    hide Wrap32, Wrap64, Tick;
  }

  lemma OnDisconnectRtt(s: State, k: nat, ok: bool)
    requires Enabled(s, Work(k, ok)) && !InReceive(s.links[k].pc)
    ensures RttMoves(s, OnDisconnectStep(s, k, ok))
  {
    hide Wrap32, Wrap64, Tick;
    SameRtt(s, k, ok);
    var c := s.links[k].client;
    var s' := OnDisconnectStep(s, k, ok);
    hide OnDisconnectStep;
    SumUpdate(s.clients, c, s'.clients[c], Added);
  }

  lemma SameRtt(s: State, k: nat, ok: bool)
    requires Enabled(s, Work(k, ok)) && !InReceive(s.links[k].pc)
    ensures
      var c := s.links[k].client;
      var s' := OnDisconnectStep(s, k, ok);
      && s'.t.rttSum == s.t.rttSum && |s'.clients| == |s.clients| && s'.clients == s.clients[c := s'.clients[c]]
      && s'.clients[c].rttTotal == s.clients[c].rttTotal
  {
    hide Wrap32, Wrap64, Tick, Target, InReceive;
    if s.links[k].pc.SendingFirst? {
      SameRttFirst(s, k, ok);
    } else {
      hide SendTo;
    }
  }

  lemma SameRttFirst(s: State, k: nat, ok: bool)
    requires Enabled(s, Work(k, ok)) && s.links[k].pc.SendingFirst?
    ensures
      var c := s.links[k].client;
      var s' := OnDisconnectStep(s, k, ok);
      s'.t == s.t && |s'.clients| == |s.clients| && s'.clients == s.clients[c := s'.clients[c]]
      && s'.clients[c].rttTotal == s.clients[c].rttTotal
  {
    hide Target;
  }

  lemma StepMoves(s: State, k: nat, ok: bool)
    requires Enabled(s, Work(k, ok))
    ensures CountsMove(s, Step(s, k, ok), k) && RefsMove(s, Step(s, k, ok), k) && RttMoves(s, Step(s, k, ok))
  {
    hide OnReceiveStep, OnDisconnectStep, CountsMove, RefsMove, RttMoves;
    if InReceive(s.links[k].pc) {
      OnReceiveCounts(s, k);
      OnReceiveRefs(s, k);
      OnReceiveRtt(s, k);
    } else {
      if Plain(s.links[k].pc) {
        PlainCounts(s, k, ok);
        PlainRefs(s, k, ok);
      } else {
        FirstSendMoves(s, k, ok);
      }
      OnDisconnectRtt(s, k, ok);
    }
  }

  lemma LedgerStep(w0: Weights, s: State, a: Action)
    requires LedgerInv(w0, s) && Enabled(s, a)
    ensures LedgerInv(w0, Apply(s, a))
  {
    if a.Work? {
      hide Step, Weigh;
      WeighStep(s, a.k, a.ok);
      StepMoves(s, a.k, a.ok);
      LedgerWeights(s);
      LedgerWeights(Apply(s, a));
    } else {
      LedgerOther(w0, s, a);
    }
  }

  lemma LedgerWeights(s: State)
    ensures
      var w := Weigh(s.links);
      && w.before == Sum(s.links, BeforeSend) && w.classified == Sum(s.links, Classified)
      && w.straddling == Sum(s.links, Straddling) && w.refs == Sum(s.links, Refs)
  {
  }

  lemma LedgerOther(w0: Weights, s: State, a: Action)
    requires LedgerInv(w0, s) && Enabled(s, a) && !a.Work?
    ensures LedgerInv(w0, Apply(s, a))
  {
    if a.Receive? || a.Drop? {
      hide Apply;
      LedgerRecv(w0, s, a);
    } else if a.ServerReceive? || a.ServerSend? || a.Cut? {
      hide Wrap32, Read;
      WeighUpdate(s.links, a.k, Apply(s, a).links[a.k]);
      hide Sum;
    } else {
      hide Wrap32, Read, Sum;
    }
  }

  /** recv returns a packet, or part of one, or fails. */
  lemma LedgerRecv(w0: Weights, s: State, a: Action)
    requires LedgerInv(w0, s) && Enabled(s, a) && (a.Receive? || a.Drop?)
    ensures LedgerInv(w0, Apply(s, a))
  {
    hide Apply, Sum, Weigh;
    RecvMoves(s, a);
    var s' := Apply(s, a);
    WeighUpdate(s.links, a.k, s'.links[a.k]);
    if a.Drop? {
      var c := s.links[a.k].client;
      SumUpdate(s.clients, c, s.clients[c].(connected := false), Added);
    }
    hide Enabled;
    LedgerMoves(w0, s, s');
  }

  /** The laws of a step that changes no sum but that of the references. */
  lemma LedgerMoves(w0: Weights, s: State, s': State)
    requires LedgerInv(w0, s) && s'.counting == s.counting && s'.freeing == s.freeing
      && s'.serverFreeing == s.serverFreeing
    requires s'.t == s.t.(taken := s'.t.taken) && s'.t.taken - s.t.taken == Weigh(s'.links).refs - Weigh(s.links).refs
    requires Weigh(s'.links) == Weigh(s.links).(refs := Weigh(s'.links).refs)
      && Sum(s'.clients, Added) == Sum(s.clients, Added)
    ensures LedgerInv(w0, s')
  {
    hide Sum;
  }

  predicate DropsClient(s: State, s': State, c: nat) {
    c < |s.clients| && s'.clients == s.clients[c := s.clients[c].(connected := false)]
  }

  lemma RecvMoves(s: State, a: Action)
    requires Enabled(s, a) && (a.Receive? || a.Drop?)
    ensures
      var s' := Apply(s, a);
      && |s'.links| == |s.links| && s'.links == s.links[a.k := s'.links[a.k]]
      && s'.t == s.t.(taken := s.t.taken + Refs(s'.links[a.k]) - Refs(s.links[a.k]))
      && s'.counting == s.counting && s'.freeing == s.freeing && s'.serverFreeing == s.serverFreeing
      && BeforeSend(s'.links[a.k]) == BeforeSend(s.links[a.k]) && Classified(s'.links[a.k]) == Classified(s.links[a.k])
      && Straddling(s'.links[a.k]) == Straddling(s.links[a.k])
      && (a.Receive? ==> s'.clients == s.clients)
      && (a.Drop? ==> DropsClient(s, s', s.links[a.k].client))
  {
    hide Read, TickWire;
  }

  // ---- The laws over runs ----

  lemma StartLedger(s: State)
    requires IsStart(s)
    ensures LedgerInv(Held(s), s) && CountersInv(s.g, s)
  {
    hide ClientInv;
    SumZero(s.clients, Added);
  }

  lemma {:induction false} RunLedger(states: seq<State>)
    requires Run(states)
    ensures LedgerInv(Held(states[0]), states[|states| - 1]) && CountersInv(states[0].g, states[|states| - 1])
    decreases |states|
  {
    hide LedgerInv, CountersInv, Apply;
    if |states| == 1 {
      StartLedger(states[0]);
    } else {
      var k := |states| - 1;
      var before := states[..k];
      assert AnyStep(states[k - 1], states[k]);
      assert Run(before) by {
        forall i | 0 < i < |before|
          ensures AnyStep(before[i - 1], before[i])
        {
          assert AnyStep(states[i - 1], states[i]);
        }
      }
      RunLedger(before);
      StepLedger(Held(states[0]), states[0].g, states[k - 1], states[k]);
    }
  }

  lemma StepLedger(w0: Weights, g0: Counters, s: State, s': State)
    requires LedgerInv(w0, s) && CountersInv(g0, s) && AnyStep(s, s')
    ensures LedgerInv(w0, s') && CountersInv(g0, s')
  {
    hide LedgerInv, CountersInv, Apply;
    var a :| Enabled(s, a) && s' == Apply(s, a);
    LedgerStep(w0, s, a);
    CountersStep(g0, s, a);
  }

  /** A wrapped value differs from the value by a multiple of 2^32. */
  lemma Quotients(x: int) returns (q32: int, q64: int)
    ensures x == TWO_POW_32 * q32 + Wrap32(x) && x == TWO_POW_32 * q64 + Wrap64(x)
  {
    q32 := x / TWO_POW_32;
    q64 := TWO_POW_32 * (x / TWO_POW_64);
  }

  lemma Wrap32Multiple(x: int, q: int)
    ensures Wrap32(x + TWO_POW_32 * q) == Wrap32(x)
  {
    assert x + TWO_POW_32 * q == TWO_POW_32 * (x / TWO_POW_32 + q) + Wrap32(x);
  }

  lemma ReceivedLaw(w0: Weights, g0: Counters, s: State)
    requires LedgerInv(w0, s) && CountersInv(g0, s)
    ensures Wrap32((s.g.recv + s.t.printedRecv - g0.recv) - (s.g.send + s.t.printedSend - g0.send))
         == Wrap32(Held(s).before - w0.before)
  {
    hide Wrap32, Wrap64, Held;
    var q, _ := Quotients(g0.recv + s.t.recvs - s.t.printedRecv);
    var r, _ := Quotients(g0.send + s.t.sends - s.t.printedSend);
    var held := Held(s).before - w0.before;
    assert s.t.recvs - s.t.sends == held;
    assert (s.g.recv + s.t.printedRecv - g0.recv) - (s.g.send + s.t.printedSend - g0.send)
        == held + TWO_POW_32 * (r - q);
    Wrap32Multiple(held, r - q);
  }

  lemma ClassifiedLaw(w0: Weights, g0: Counters, s: State)
    requires LedgerInv(w0, s) && CountersInv(g0, s)
    ensures Wrap32((s.g.rttCount - g0.rttCount) + (s.g.error - g0.error) - (s.g.recv + s.t.printedRecv - g0.recv))
         == Wrap32(Held(s).classified - w0.classified)
  {
    hide Wrap32, Wrap64, Held;
    var q, _ := Quotients(g0.recv + s.t.recvs - s.t.printedRecv);
    var _, r := Quotients(g0.rttCount + s.t.rtts);
    var _, e := Quotients(g0.error + s.t.errors);
    var between := Held(s).classified - w0.classified;
    assert s.t.rtts + s.t.errors - s.t.recvs == between;
    assert (s.g.rttCount - g0.rttCount) + (s.g.error - g0.error) - (s.g.recv + s.t.printedRecv - g0.recv)
        == between + TWO_POW_32 * (q - r - e);
    Wrap32Multiple(between, q - r - e);
  }

  lemma ConnectionsLaw(w0: Weights, g0: Counters, s: State)
    requires LedgerInv(w0, s) && CountersInv(g0, s)
    ensures Wrap32((s.g.total - g0.total) + (s.g.down - g0.down) - (s.g.connectTotal - g0.connectTotal))
         == Wrap32(w0.straddling - Held(s).straddling)
  {
    hide Wrap32, Wrap64, Held;
    var q, _ := Quotients(g0.total + s.t.total);
    var _, d := Quotients(g0.down + s.t.downs);
    var _, c := Quotients(g0.connectTotal + s.t.connects);
    var between := w0.straddling - Held(s).straddling;
    assert s.t.total + s.t.downs - s.t.connects == between;
    assert (s.g.total - g0.total) + (s.g.down - g0.down) - (s.g.connectTotal - g0.connectTotal)
        == between + TWO_POW_32 * (c - q - d);
    Wrap32Multiple(between, c - q - d);
  }

  /** Received against sent: what the counters show, with what main has already printed, differs from
      the start exactly by the OnReceive calls between their two increments, now less then, modulo 2^32. */
  lemma ReceivedMinusSent(states: seq<State>)
    requires Run(states)
    ensures
      var s0, s := states[0], states[|states| - 1];
      Wrap32((s.g.recv + s.t.printedRecv - s0.g.recv) - (s.g.send + s.t.printedSend - s0.g.send))
      == Wrap32(Held(s).before - Held(s0).before)
  {
    hide IsStart, AnyStep, LedgerInv, CountersInv, Wrap32, Held;
    var s0, s := states[0], states[|states| - 1];
    RunLedger(states);
    hide Run;
    ReceivedLaw(Held(s0), s0.g, s);
  }

  /** Classified against received: every packet counted in g_echoRecvCount has been counted once, as an
      RTT or as an error; the difference is the handlers in between. */
  lemma ClassifiedMinusReceived(states: seq<State>)
    requires Run(states)
    ensures
      var s0, s := states[0], states[|states| - 1];
      Wrap32((s.g.rttCount - s0.g.rttCount) + (s.g.error - s0.g.error) - (s.g.recv + s.t.printedRecv - s0.g.recv))
      == Wrap32(Held(s).classified - Held(s0).classified)
  {
    hide IsStart, AnyStep, LedgerInv, CountersInv, Wrap32, Held;
    var s0, s := states[0], states[|states| - 1];
    RunLedger(states);
    hide Run;
    ClassifiedLaw(Held(s0), s0.g, s);
  }

  /** Connections: g_totalConnectedClientCount + g_downCount - g_connectTotalCount keeps its value,
      modulo 2^32, up to the threads in the middle of one of the two pairs of increments. */
  lemma ConnectionsBalance(states: seq<State>)
    requires Run(states)
    ensures
      var s0, s := states[0], states[|states| - 1];
      Wrap32((s.g.total - s0.g.total) + (s.g.down - s0.g.down) - (s.g.connectTotal - s0.g.connectTotal))
      == Wrap32(Held(s0).straddling - Held(s).straddling)
  {
    hide IsStart, AnyStep, LedgerInv, CountersInv, Wrap32, Held;
    var s0, s := states[0], states[|states| - 1];
    RunLedger(states);
    hide Run;
    ConnectionsLaw(Held(s0), s0.g, s);
  }

  /** Packet references: those the content handlers have received or allocated, less those they have
      freed, are exactly those held now, less those held at the start; and none are held exactly when no
      handler is running. */
  lemma PacketBalance(states: seq<State>)
    requires Run(states)
    ensures
      var s0, s := states[0], states[|states| - 1];
      && s.t.taken - s.t.freed == Held(s).refs - Held(s0).refs
      && (Held(s).refs == 0 <==>
            (s.counting == s.freeing == s.serverFreeing == 0
             && forall k :: 0 <= k < |s.links| ==> ThreadRefs(s.links[k].pc) == 0 && s.links[k].server.Quiet?))
  {
    hide CountersInv;
    RunLedger(states);
    NoRefs(states[|states| - 1]);
  }

  lemma NoRefs(s: State)
    ensures Held(s).refs == 0 <==>
      (s.counting == s.freeing == s.serverFreeing == 0
       && forall k :: 0 <= k < |s.links| ==> ThreadRefs(s.links[k].pc) == 0 && s.links[k].server.Quiet?)
  {
    SumNonNegative(s.links, Refs);
    if Held(s).refs == 0 {
      forall k | 0 <= k < |s.links|
        ensures Refs(s.links[k]) == 0
      {
        SumBoundsEach(s.links, Refs, k);
      }
    } else if s.counting == s.freeing == s.serverFreeing == 0 {
      var k := SumPositive(s.links, Refs);
    }
  }
}
