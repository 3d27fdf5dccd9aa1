/** What the echo test promises: over all patient runs of any number of clients one packet, no races and the bound on
    the RTTs, over all tame runs no errors. */
module EchoTheorems {
  import opened EchoModel
  import opened EchoCounters
  import opened EchoLeftover
  import opened EchoToken
  import opened EchoTicks
  import opened Sums

  /** No thread of client c is between Connect and its first send. */
  ghost predicate Settled(s: State, c: nat) {
    forall j :: 0 <= j < |s.links| && s.links[j].client == c ==> !Opening(s.links[j].pc)
  }

  /** On the connection its socket refers to and nowhere else, client c has exactly one packet, or has lost it
      with a connection that is down, or it is in the client's receive buffer. */
  ghost predicate HasOnePacket(s: State, c: nat)
    requires c < |s.clients|
  {
    var cl := s.clients[c];
    && 0 <= cl.sock < |s.links|
    && var link := s.links[cl.sock];
    && link.client == c
    && Tokens(link) + InHand(link.pc) + link.lost + link.swallowed == 1 && (link.up ==> link.lost == 0)
    && (forall j :: 0 <= j < |s.links| && j != cl.sock && s.links[j].client == c ==> Retired(s.links[j].pc))
  }

  /** One packet: so it is with every connected client that has finished its post-connect send, as long as no
      connection drops before its first send, whatever is left in the receive buffers. */
  lemma OnePacket(states: seq<State>, c: nat)
    requires PatientRun(states)
    requires var s := states[|states| - 1]; c < |s.clients| && s.clients[c].connected && Settled(s, c)
    ensures HasOnePacket(states[|states| - 1], c)
  {
    RunCount(states);
    var s := states[|states| - 1];
    hide PatientRun, ClientInv;
    OneTokenState(s.now, s.clients[c], c, s.links);
  }

  /** One token: in tame runs the packet also carries the tick the client last recorded, and it is in the receive
      buffer only of a client that is deaf. */
  lemma OneToken(states: seq<State>, c: nat)
    requires TameRun(states)
    requires var s := states[|states| - 1]; c < |s.clients| && s.clients[c].connected && Settled(s, c)
    ensures
      var s := states[|states| - 1];
      && HasOnePacket(s, c)
      && var link := s.links[s.clients[c].sock];
      && (link.swallowed > 0 ==> Deafens(Kept(s, c)))
      && Carries(link, s.clients[c].lastSendTick)
      && (link.pc.Comparing? || link.pc.Sending? ==> link.pc.tick == s.clients[c].lastSendTick)
  {
    TameIsPatient(states);
    OnePacket(states, c);
    RunToken(states);
    var s := states[|states| - 1];
    hide TameRun, PatientRun, TokenInv, Deafens, Kept, HasOnePacket;
    TokenOf(s, c);
    OneTokenState(s.now, s.clients[c], c, s.links);
  }

  /** The packet never stalls: whatever key the server sends it under, the next step on its way round can be taken, as
      long as its connection is up and nothing is in the client's receive buffer. */
  lemma RingNeverStalls(states: seq<State>, c: nat, key: PacketCodec.byte, ok: bool)
    requires TameRun(states)
    requires
      var s := states[|states| - 1];
      && c < |s.clients| && s.clients[c].connected && Settled(s, c) && c !in s.kept
      && 0 <= s.clients[c].sock < |s.links| && s.links[s.clients[c].sock].up
    ensures
      var s := states[|states| - 1];
      var k := s.clients[c].sock;
      if s.links[k].pc.Receiving?
      then Enabled(s, Receive(k, key)) || Enabled(s, ServerReceive(k)) || Enabled(s, ServerSend(k))
      else Enabled(s, Work(k, ok))
  {
    TameIsPatient(states);
    OnePacket(states, c);
    RunToken(states);
    var s := states[|states| - 1];
    hide TameRun, PatientRun, TokenInv, Deafens;
    TokenOf(s, c);
    OneTokenState(s.now, s.clients[c], c, s.links);
    RingState(s, c, key, ok);
  }

  lemma RingState(s: State, c: nat, key: PacketCodec.byte, ok: bool)
    requires c < |s.clients| && ClientInv(s.now, s.clients[c], c, s.links) && Ticked(s.clients[c], s.links)
    requires HasOnePacket(s, c) && c !in s.kept && s.clients[c].owner == s.clients[c].sock
    requires
      var link := s.links[s.clients[c].sock];
      link.up && link.swallowed == 0 && (link.pc.Receiving? || InReceive(link.pc))
    ensures
      var k := s.clients[c].sock;
      if s.links[k].pc.Receiving?
      then Enabled(s, Receive(k, key)) || Enabled(s, ServerReceive(k)) || Enabled(s, ServerSend(k))
      else Enabled(s, Work(k, ok))
  {
    hide Read;
    var k := s.clients[c].sock;
    if s.links[k].pc.Receiving? && s.links[k].toClient != [] {
      PacketTick(s.now, s.clients[c], c, s.links, k);
      ReadsTick(s.links[k].toClient[0], key);
    }
  }

  lemma TameIsPatient(states: seq<State>)
    requires TameRun(states)
    ensures PatientRun(states)
  {
    hide IsStart;
    forall i | 0 < i < |states|
      ensures PatientStep(states[i - 1], states[i])
    {
      assert TameStep(states[i - 1], states[i]);
    }
  }

  lemma TokenOf(s: State, c: nat)
    requires TokenInv(s) && c < |s.clients|
    ensures ClientInv(s.now, s.clients[c], c, s.links) && Ticked(s.clients[c], s.links)
    ensures forall k :: 0 <= k < |s.links| && s.links[k].client == c && s.links[k].swallowed > 0 ==> Deafens(Kept(s, c))
  {
    hide ClientInv, Deafens, Ticked;
    assert OwnToken(s, c);
  }

  lemma OneTokenState(now: nat, cl: Client, c: nat, links: seq<Link>)
    requires ClientInv(now, cl, c, links) && cl.connected
    requires forall j :: 0 <= j < |links| && links[j].client == c ==> !Opening(links[j].pc)
    ensures cl.owner == cl.sock && 0 <= cl.sock < |links| && links[cl.sock].client == c && TokenOk(links[cl.sock])
      && (links[cl.sock].pc.Receiving? || InReceive(links[cl.sock].pc))
    ensures forall j :: 0 <= j < |links| && j != cl.sock && links[j].client == c ==> Retired(links[j].pc)
  {
    forall j | 0 <= j < |links| && j != cl.owner && links[j].client == c
      ensures Retired(links[j].pc)
    {
      assert OtherOk(cl, links, j);
    }
  }

  lemma NoThreadErrs(s: State, k: nat)
    requires TokenInv(s) && k < |s.links|
    ensures !s.links[k].pc.CountingError?
  {
    hide TokenInv, ClientInv;
    InvOf(s, k);
    TokenOf(s, s.links[k].client);
    if s.links[k].pc.CountingError? {
      WorkerIsOwner(s.now, s.clients[s.links[k].client], s.links[k].client, s.links, k);
    }
  }

  lemma ErrorsOnlyThere(s: State, a: Action)
    requires Enabled(s, a) && s.t.errors == 0
    requires a.Work? ==> !s.links[a.k].pc.CountingError?
    ensures Apply(s, a).t.errors == 0
  {
    hide Wrap32, Wrap64, Tick, Put;
  }

  lemma {:induction false} NoErrors(states: seq<State>)
    requires TameRun(states)
    ensures states[|states| - 1].t.errors == 0
    decreases |states|
  {
    hide TokenInv, Apply;
    if |states| > 1 {
      var k := |states| - 1;
      TamePrefix(states);
      NoErrors(states[..k]);
      RunToken(states[..k]);
      assert TameStep(states[k - 1], states[k]);
      var a :| Tame(states[k - 1], a) && states[k] == Apply(states[k - 1], a);
      if a.Work? {
        NoThreadErrs(states[k - 1], a.k);
      }
      ErrorsOnlyThere(states[k - 1], a);
    }
  }

  lemma PatientRunIsRun(states: seq<State>)
    requires PatientRun(states)
    ensures Run(states)
  {
    hide IsStart;
    forall i | 0 < i < |states|
      ensures AnyStep(states[i - 1], states[i])
    {
      assert PatientStep(states[i - 1], states[i]);
      var a :| Patient(states[i - 1], a) && states[i] == Apply(states[i - 1], a);
    }
  }

  lemma TameRunIsRun(states: seq<State>)
    requires TameRun(states)
    ensures Run(states)
  {
    TameIsPatient(states);
    PatientRunIsRun(states);
  }

  lemma StartRange(states: seq<State>)
    requires TameRun(states)
    ensures states[0].g.error < TWO_POW_64
  {
  }

  lemma ErrorLedger(g0: Counters, s: State)
    requires CountersInv(g0, s) && s.t.errors == 0 && g0.error < TWO_POW_64
    ensures s.g.error == g0.error
  {
  }

  /** No tame run ever increments g_echoErrorCount. */
  lemma EchoErrorsNeverCounted(states: seq<State>)
    requires TameRun(states)
    ensures states[|states| - 1].g.error == states[0].g.error
    ensures var s := states[|states| - 1]; forall k :: 0 <= k < |s.links| ==> !s.links[k].pc.CountingError?
  {
    hide LedgerInv, TokenInv, CountersInv, Run, TameRun;
    NoErrors(states);
    TameRunIsRun(states);
    RunLedger(states);
    RunToken(states);
    var s := states[|states| - 1];
    StartRange(states);
    ErrorLedger(states[0].g, s);
    forall k | 0 <= k < |s.links|
      ensures !s.links[k].pc.CountingError?
    {
      NoThreadErrs(s, k);
    }
  }

  // ---- Races ----

  /** The thread's next statement reads or writes mLastSendTick or mLastRTT. */
  predicate Touches(pc: Pc) {
    pc.Comparing? || pc.TakingRtt? || pc.AddingRtt? || pc.TakingTick? || pc.WritingTick? || pc.StoringTick?
  }

  /** Race freedom: as long as no connection drops before its first send, of the threads of one client at most one
      is about to touch mLastSendTick or mLastRTT, and while it is, the client's packet is in its hand and nowhere
      else. Tails of OnReceive touch neither. */
  lemma RaceFree(states: seq<State>, i: nat, j: nat)
    requires PatientRun(states)
    requires var s := states[|states| - 1];
      i < |s.links| && j < |s.links| && s.links[i].client == s.links[j].client && Touches(s.links[i].pc)
    ensures var s := states[|states| - 1]; i != j ==> !Touches(s.links[j].pc)
    ensures var s := states[|states| - 1];
      !s.links[i].pc.StoringTick? ==> Tokens(s.links[i]) == 0 && (i != j ==> Retired(s.links[j].pc))
    ensures var s := states[|states| - 1];
      s.links[i].pc.StoringTick? && i != j ==> Retired(s.links[j].pc) || Fresh(s.links[j])
  {
    RunCount(states);
    var s := states[|states| - 1];
    hide PatientRun;
    CountOf(s, i);
    hide CountInv;
    RaceFreeState(s.now, s.clients[s.links[i].client], s.links[i].client, s.links, i, j);
  }

  lemma RaceFreeState(now: nat, cl: Client, c: nat, links: seq<Link>, i: nat, j: nat)
    requires ClientInv(now, cl, c, links) && i < |links| && j < |links|
    requires links[i].client == links[j].client == c && Touches(links[i].pc)
    ensures i != j ==> !Touches(links[j].pc)
    ensures !links[i].pc.StoringTick? ==> Tokens(links[i]) == 0 && (i != j ==> Retired(links[j].pc))
    ensures links[i].pc.StoringTick? && i != j ==> Retired(links[j].pc) || Fresh(links[j])
  {
    WorkerIsOwner(now, cl, c, links, i);
    if i != j {
      assert OtherOk(cl, links, j);
    }
  }

  // ---- Round-trip times ----

  /** Clients keep their number and their start times, and time does not run backwards. */
  predicate SameStarts(s: State, s': State) {
    && |s'.clients| == |s.clients| && s'.now >= s.now
    && forall c :: 0 <= c < |s.clients| ==> s'.clients[c].start == s.clients[c].start
  }

  lemma OnReceiveStarts(s: State, k: nat)
    requires k < |s.links| && InReceive(s.links[k].pc) && s.links[k].client < |s.clients|
    ensures SameStarts(s, OnReceiveStep(s, k))
  {
    hide Wrap32, Wrap64, Tick, Put;
  }

  lemma OnDisconnectStarts(s: State, k: nat, ok: bool)
    requires Enabled(s, Work(k, ok)) && !InReceive(s.links[k].pc)
    ensures SameStarts(s, OnDisconnectStep(s, k, ok))
  {
    hide Wrap32, Wrap64, Tick;
  }

  lemma StartsKept(s: State, a: Action)
    requires Enabled(s, a)
    ensures SameStarts(s, Apply(s, a))
  {
    if a.Work? {
      hide OnReceiveStep, OnDisconnectStep, SameStarts;
      if InReceive(s.links[a.k].pc) {
        OnReceiveStarts(s, a.k);
      } else {
        OnDisconnectStarts(s, a.k, a.ok);
      }
    } else {
      hide Step, Wrap32;
    }
  }

  lemma {:induction false} RunStarts(states: seq<State>)
    requires PatientRun(states)
    ensures
      var s0, s := states[0], states[|states| - 1];
      |s.clients| == |s0.clients| && forall c :: 0 <= c < |s.clients| ==> s.clients[c].start == s0.clients[c].start
    decreases |states|
  {
    hide Apply;
    if |states| > 1 {
      var k := |states| - 1;
      PatientPrefix(states);
      RunStarts(states[..k]);
      assert PatientStep(states[k - 1], states[k]);
      var a :| Patient(states[k - 1], a) && states[k] == Apply(states[k - 1], a);
      StartsKept(states[k - 1], a);
    }
  }

  /** The RTTs a client adds sum to at most the true time since its first send. */
  lemma RttsOfClient(states: seq<State>, c: nat)
    requires PatientRun(states) && c < |states[0].clients|
    ensures
      var s := states[|states| - 1];
      c < |s.clients| && s.clients[c].rttTotal <= s.now - states[0].clients[c].start
  {
    hide ClientInv;
    RunCount(states);
    RunStarts(states);
    var s := states[|states| - 1];
    ClientBounds(s.now, s.clients[c], c, s.links);
  }

  /** g_rttSum grows by at most N times the elapsed time, and as long as its initial value plus that
      bound is below 2^64 it does not wrap: it is the initial value plus all RTTs added. */
  lemma RttSumBound(states: seq<State>, earliest: nat)
    requires PatientRun(states)
    requires forall c :: 0 <= c < |states[0].clients| ==> earliest <= states[0].clients[c].start
    ensures
      var s := states[|states| - 1];
      && s.t.rttSum <= |s.clients| * (s.now - earliest)
      && (states[0].g.rttSum + |s.clients| * (s.now - earliest) < TWO_POW_64 ==>
            s.g.rttSum == states[0].g.rttSum + s.t.rttSum)
  {
    hide LedgerInv, CountersInv;
    PatientRunIsRun(states);
    RunLedger(states);
    AddedBound(states, earliest);
    var s := states[|states| - 1];
    RttLedger(Held(states[0]), states[0].g, s, |s.clients| * (s.now - earliest));
  }

  lemma AddedBound(states: seq<State>, earliest: nat)
    requires PatientRun(states)
    requires forall c :: 0 <= c < |states[0].clients| ==> earliest <= states[0].clients[c].start
    ensures var s := states[|states| - 1]; Sum(s.clients, Added) <= |s.clients| * (s.now - earliest)
  {
    var s := states[|states| - 1];
    RunStarts(states);
    forall c | 0 <= c < |s.clients|
      ensures Added(s.clients[c]) <= s.now - earliest
    {
      RttsOfClient(states, c);
    }
    hide PatientRun, Sum;
    SumUpperBound(s.clients, Added, s.now - earliest);
  }

  lemma RttLedger(w0: Weights, g0: Counters, s: State, bound: int)
    requires LedgerInv(w0, s) && CountersInv(g0, s) && Sum(s.clients, Added) <= bound
    ensures s.t.rttSum <= bound
    ensures g0.rttSum + bound < TWO_POW_64 ==> s.g.rttSum == g0.rttSum + s.t.rttSum
  {
  }
}
