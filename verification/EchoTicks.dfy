/** With tame drops the packets carry the right ticks: each client's packet has the tick the client last
    recorded, and is read as it was sent or not at all. */
module EchoTicks {
  import opened EchoModel
  import opened EchoLeftover
  import opened EchoToken

  /** What is left in a client's receive buffer deafens it, and packets were swallowed only then. */
  ghost predicate KeptInv(s: State, c: nat) {
    && (c in s.kept ==> Deafens(s.kept[c]))
    && forall k :: 0 <= k < |s.links| && s.links[k].client == c && s.links[k].swallowed > 0 ==> c in s.kept
  }

  ghost predicate OwnToken(s: State, c: nat)
    requires c < |s.clients|
  {
    KeptInv(s, c) && ClientInv(s.now, s.clients[c], c, s.links) && Ticked(s.clients[c], s.links)
  }

  ghost predicate TokenInv(s: State) {
    WellFormed(s) && forall c :: 0 <= c < |s.clients| ==> OwnToken(s, c)
  }

  lemma PacketTick(now: nat, cl: Client, c: nat, links: seq<Link>, k: nat)
    requires ClientInv(now, cl, c, links) && k < |links| && links[k].client == c && links[k].pc.Receiving?
      && links[k].toClient != [] && Ticked(cl, links)
    ensures links[k].toClient[0] < TWO_POW_32
  {
    WorkerIsOwner(now, cl, c, links, k);
  }

  lemma ReadRightOf(s: State, a: Action)
    requires Enabled(s, a)
      && (a.Receive? ==> a.k < |s.links| && s.links[a.k].client < |s.clients| && OwnToken(s, s.links[a.k].client))
    ensures ReadRight(s, a)
  {
    hide Read, ClientInv, Deafens;
    if a.Receive? {
      var link := s.links[a.k];
      if link.client in s.kept {
        DeafReads(s.kept[link.client], link.toClient[0], a.key);
      } else {
        PacketTick(s.now, s.clients[link.client], link.client, s.links, a.k);
        hide KeptInv;
        ReadsTick(link.toClient[0], a.key);
      }
    }
  }

  /** If the step is a receive, it reads what was sent, or, if the client is deaf, nothing. */
  predicate ReadRight(s: State, a: Action)
    requires Enabled(s, a)
  {
    a.Receive? ==>
      var c := s.links[a.k].client;
      var read := Read(Kept(s, c), s.links[a.k].toClient[0], a.key);
      if c in s.kept then read.Waits? && read.bytes != [] && Deafens(read.bytes)
      else read == Delivers(s.links[a.k].toClient[0], [])
  }

  lemma KeptGoes(s: State, a: Action, c: nat)
    requires KeptInv(s, c) && Tame(s, a) && ReadRight(s, a)
    ensures c in Apply(s, a).kept ==> Deafens(Apply(s, a).kept[c])
    ensures c in s.kept ==> c in Apply(s, a).kept
  {
    hide Deafens, Read, NoneOpening, Left, Incomplete, Step;
    if !a.Receive? && !(a.Drop? && a.cut > 0) {
      KeptStays(s, a);
    } else if a.Drop? {
      LeftIsSome(s, a);
    }
  }

  lemma LeftIsSome(s: State, a: Action)
    requires Enabled(s, a) && a.Drop? && a.cut > 0
    ensures Left(s, a.k, a.cut, a.key) != []
  {
    hide TickWire;
  }

  lemma SwallowedStays(s: State, a: Action, i: nat)
    requires Enabled(s, a) && ReadRight(s, a) && i < |Apply(s, a).links|
    ensures
      var s' := Apply(s, a);
      if i >= |s.links| then s'.links[i].swallowed == 0
      else
        && s'.links[i].client == s.links[i].client
        && (s'.links[i].swallowed == s.links[i].swallowed || s.links[i].client in s.kept)
  {
    hide Step, ReadRight;
    if a.Work? {
      WorkFrame(s, a.k, a.ok);
      hide Enabled;
    } else {
      hide Apply;
      TransportFrame(s, a);
      if i == Acted(s, a) {
        TransportSwallows(s, a);
      }
    }
  }

  lemma TransportSwallows(s: State, a: Action)
    requires Enabled(s, a) && ReadRight(s, a) && !a.Work? && Acted(s, a) < |s.links|
    ensures
      var k, s' := Acted(s, a), Apply(s, a);
      k < |s'.links| && (s'.links[k].swallowed == s.links[k].swallowed || s.links[k].client in s.kept)
  {
    hide Left, Read, Deafens, Incomplete;
  }

  lemma KeptStep(s: State, a: Action, c: nat)
    requires KeptInv(s, c) && Tame(s, a) && ReadRight(s, a)
    ensures KeptInv(Apply(s, a), c)
  {
    assert Enabled(s, a);
    hide Apply, ReadRight, Tame;
    KeptGoes(s, a, c);
    forall i | 0 <= i < |Apply(s, a).links|
      ensures Apply(s, a).links[i].client == c && Apply(s, a).links[i].swallowed > 0 ==> c in Apply(s, a).kept
    {
      SwallowedStays(s, a, i);
    }
  }

  lemma KeptElsewhere(s: State, a: Action, c: nat)
    requires c < |s.clients| && KeptInv(s, c) && Enabled(s, a) && !Acts(s, a, c) && Elsewhere(s, Apply(s, a), c)
    ensures KeptInv(Apply(s, a), c)
  {
    if !a.Receive? && !a.Drop? {
      KeptStays(s, a);
      hide Apply;
    } else {
      hide Read, Left, Deafens, Incomplete;
    }
  }

  // ---- The ticks ----

  /** One statement of OnReceive. */
  lemma ReceiveTicks(s: State, k: nat)
    requires k < |s.links| && s.links[k].client < |s.clients| && InReceive(s.links[k].pc) && TokenOk(s.links[k])
    requires TicksOk(s.clients[s.links[k].client], s.links[k])
    ensures
      var c, s' := s.links[k].client, OnReceiveStep(s, k);
      k < |s'.links| && c < |s'.clients| && TicksOk(s'.clients[c], s'.links[k])
      && s'.clients[c].owner == s.clients[c].owner
  {
    hide Wrap32, Wrap64, Tick;
    if s.links[k].pc.Sending? {
      SentTicks(s, k);
    } else {
      hide SendTo, Target;
    }
  }

  lemma SentTicks(s: State, k: nat)
    requires k < |s.links| && s.links[k].client < |s.clients| && s.links[k].pc.Sending? && TokenOk(s.links[k])
    requires TicksOk(s.clients[s.links[k].client], s.links[k])
    ensures
      var c, s' := s.links[k].client, OnReceiveStep(s, k);
      k < |s'.links| && c < |s'.clients| && TicksOk(s'.clients[c], s'.links[k])
      && s'.clients[c].owner == s.clients[c].owner
  {
    hide Wrap32, Wrap64, Tick, Target;
  }

  /** OnDisconnect does not come back to recv. */
  lemma NotBack(s: State, k: nat, ok: bool)
    requires Enabled(s, Work(k, ok)) && !InReceive(s.links[k].pc) && !s.links[k].pc.SendingFirst?
    ensures
      var s' := OnDisconnectStep(s, k, ok);
      && k < |s'.links| && !s'.links[k].pc.Receiving? && !InReceive(s'.links[k].pc)
      && s.links[k].client < |s'.clients| && s'.clients[s.links[k].client].owner == s.clients[s.links[k].client].owner
  {
    hide InReceive, OnDisconnectStep;
    var pc := s.links[k].pc;
    if pc.Connecting? {
      ConnectNotBack(s, k, ok);
    } else if pc.MarkingConnected? || pc.ReadingClock? || pc.StoringTick? {
      OpeningNotBack(s, k, ok);
    } else {
      CountingFrame(s, k, ok);
      CountingNotBack(s, k, ok);
    }
    PastReceive(OnDisconnectStep(s, k, ok).links[k].pc);
  }

  lemma ConnectNotBack(s: State, k: nat, ok: bool)
    requires Enabled(s, Work(k, ok)) && s.links[k].pc.Connecting?
    ensures
      var c, s' := s.links[k].client, OnDisconnectStep(s, k, ok);
      && k < |s'.links| && (Disconnecting(s'.links[k].pc) || Opening(s'.links[k].pc))
      && c < |s'.clients| && s'.clients[c].owner == s.clients[c].owner
  {
    hide Wrap32, Wrap64, Tick, Target, SendTo;
  }

  lemma OpeningNotBack(s: State, k: nat, ok: bool)
    requires Enabled(s, Work(k, ok))
    requires s.links[k].pc.MarkingConnected? || s.links[k].pc.ReadingClock? || s.links[k].pc.StoringTick?
    ensures
      var c, s' := s.links[k].client, OnDisconnectStep(s, k, ok);
      k < |s'.links| && Opening(s'.links[k].pc) && c < |s'.clients| && s'.clients[c].owner == s.clients[c].owner
  {
    hide Wrap32, Wrap64, Tick, Target, SendTo;
  }

  lemma CountingNotBack(s: State, k: nat, ok: bool)
    requires Enabled(s, Work(k, ok)) && !InReceive(s.links[k].pc) && !Opening(s.links[k].pc)
      && !s.links[k].pc.Connecting?
    ensures
      var s' := OnDisconnectStep(s, k, ok);
      k < |s'.links| && (Disconnecting(s'.links[k].pc) || Retired(s'.links[k].pc))
  {
    hide Wrap32, Wrap64, Tick, Target, SendTo;
  }

  lemma PastReceive(pc: Pc)
    requires Disconnecting(pc) || Opening(pc) || Retired(pc)
    ensures !pc.Receiving? && !InReceive(pc)
  {
  }

  /** The first packet carries the tick just stored. */
  lemma FirstTicks(s: State, k: nat, ok: bool)
    requires Enabled(s, Work(k, ok)) && s.links[k].pc.SendingFirst?
    requires
      var cl := s.clients[s.links[k].client];
      && s.links[k].pc.tick == cl.lastSendTick && cl.connected
      && 0 <= cl.sock < |s.links| && cl.sock != k && Fresh(s.links[cl.sock])
    ensures
      var c, s' := s.links[k].client, OnDisconnectStep(s, k, ok);
      && c < |s'.clients| && 0 <= s'.clients[c].owner < |s'.links|
      && TicksOk(s'.clients[c], s'.links[s'.clients[c].owner])
  {
    hide Wrap32, Wrap64, Tick;
  }

  lemma WorkTicks(s: State, k: nat, ok: bool)
    requires Enabled(s, Work(k, ok)) && InvFor(s, k) && Ticked(s.clients[s.links[k].client], s.links)
    ensures
      var c, s' := s.links[k].client, Step(s, k, ok);
      c < |s'.clients| && Ticked(s'.clients[c], s'.links)
  {
    hide ClientInv, TicksOk, OnReceiveStep, OnDisconnectStep, RttOk;
    var pc, c := s.links[k].pc, s.links[k].client;
    if Retired(pc) {
      RetiredTicks(s, k, ok);
    } else {
      WorkerIsOwner(s.now, s.clients[c], c, s.links, k);
      if InReceive(pc) {
        ReceiveTicks(s, k);
      } else if pc.SendingFirst? {
        hide TokenOk;
        FirstTicks(s, k, ok);
      } else {
        NotBack(s, k, ok);
      }
    }
  }

  lemma RetiredTicks(s: State, k: nat, ok: bool)
    requires Enabled(s, Work(k, ok)) && InvFor(s, k) && Ticked(s.clients[s.links[k].client], s.links)
    requires Retired(s.links[k].pc)
    ensures
      var c, s' := s.links[k].client, Step(s, k, ok);
      c < |s'.clients| && Ticked(s'.clients[c], s'.links)
  {
    hide ClientInv, TicksOk, OnDisconnectStep;
    var c := s.links[k].client;
    RetiredIsOther(s.now, s.clients[c], c, s.links, k);
    CountingFrame(s, k, ok);
  }

  /** The network, the server and recv carry the packet along. */
  lemma TransportTicks(s: State, a: Action)
    requires Enabled(s, a) && (a.Receive? || a.ServerReceive? || a.ServerSend? || a.Cut?) && ReadRight(s, a)
    requires InvFor(s, a.k) && Ticked(s.clients[s.links[a.k].client], s.links)
    ensures
      var c, s' := s.links[a.k].client, Apply(s, a);
      c < |s'.clients| && Ticked(s'.clients[c], s'.links)
  {
    var c := s.links[a.k].client;
    hide ClientInv, TicksOk, Read, Deafens;
    TransportLink(s, a);
    if s.clients[c].owner == a.k {
      TransportPc(s, a);
      if s.links[a.k].pc.Receiving? || InReceive(s.links[a.k].pc) {
        CarriedOn(s, a, s.clients[c]);
      }
    } else if a.Receive? {
      OtherIsRetiredOrFresh(s.now, s.clients[c], c, s.links, a.k);
    }
    hide Apply;
  }

  lemma CarriedOn(s: State, a: Action, cl: Client)
    requires Enabled(s, a) && (a.Receive? || a.ServerReceive? || a.ServerSend? || a.Cut?) && ReadRight(s, a)
    requires TicksOk(cl, s.links[a.k])
    ensures a.k < |Apply(s, a).links| && TicksOk(cl, Apply(s, a).links[a.k])
  {
    hide Read, Deafens;
  }

  lemma DropTicks(s: State, a: Action)
    requires Patient(s, a) && a.Drop? && InvFor(s, a.k)
    ensures
      var c, s' := s.links[a.k].client, Apply(s, a);
      c < |s'.clients| && Ticked(s'.clients[c], s'.links)
  {
    var c := s.links[a.k].client;
    DropIsOwner(s.now, s.clients[c], c, s.links, a.k);
    hide ClientInv, OwnerOk, TicksOk, Left, Incomplete;
  }

  lemma ActorTicks(s: State, a: Action)
    requires Tame(s, a) && InvFor(s, Acted(s, a)) && ReadRight(s, a)
    requires Ticked(s.clients[s.links[Acted(s, a)].client], s.links)
    ensures
      var c, s' := s.links[Acted(s, a)].client, Apply(s, a);
      c < |s'.clients| && Ticked(s'.clients[c], s'.links)
  {
    hide ClientInv, Ticked, Step, ReadRight;
    match a
    case Work(k, ok) =>
      WorkTicks(s, k, ok);
    case Drop(_, _, _) =>
      hide Apply;
      DropTicks(s, a);
    case Receive(_, _) =>
      hide Apply;
      TransportTicks(s, a);
    case ServerReceive(_) =>
      hide Apply;
      TransportTicks(s, a);
    case ServerSend(_) =>
      hide Apply;
      TransportTicks(s, a);
    case Cut(_) =>
      hide Apply;
      TransportTicks(s, a);
    case _ =>
  }

  lemma TicksElsewhere(s: State, s': State, d: nat)
    requires d < |s.clients| && ClientInv(s.now, s.clients[d], d, s.links) && Ticked(s.clients[d], s.links)
    requires Elsewhere(s, s', d)
    ensures Ticked(s'.clients[d], s'.links)
  {
    hide TicksOk, RttOk;
  }

  // ---- Every tame step ----

  /** A tame step keeps what is said of any one client, whatever holds of the others. */
  lemma OwnStep(s: State, a: Action, c: nat)
    requires WellFormed(s) && Tame(s, a) && c < |s.clients| && OwnToken(s, c)
    ensures c < |Apply(s, a).clients| && OwnToken(Apply(s, a), c)
  {
    assert Enabled(s, a) && Patient(s, a);
    hide WellFormed, Apply, ClientInv, Tame, Ticked, Patient;
    OwnCount(s, a, c);
    if Acts(s, a, c) {
      assert ReadRight(s, a) by { ReadRightOf(s, a); }
      ActorTicks(s, a);
      KeptStep(s, a, c);
    } else {
      StepElsewhere(s, a, c);
      TicksElsewhere(s, Apply(s, a), c);
      KeptElsewhere(s, a, c);
    }
  }

  lemma InvOf(s: State, k: nat)
    requires TokenInv(s) && k < |s.links|
    ensures s.links[k].client < |s.clients|
    ensures ClientInv(s.now, s.clients[s.links[k].client], s.links[k].client, s.links)
  {
    hide ClientInv, KeptInv, Ticked;
    assert OwnToken(s, s.links[k].client);
  }

  /** Every tame step keeps the token invariant. */
  lemma TokenStep(s: State, a: Action)
    requires TokenInv(s) && Tame(s, a)
    ensures TokenInv(Apply(s, a))
  {
    assert Enabled(s, a);
    hide WellFormed, OwnToken, Apply, Tame;
    StaysWellFormed(s, a);
    forall c | 0 <= c < |s.clients|
      ensures OwnToken(Apply(s, a), c)
    {
      OwnStep(s, a, c);
    }
  }

  lemma StartToken(s: State)
    requires IsStart(s)
    ensures TokenInv(s)
  {
    hide ClientInv, Deafens, Ticked;
  }

  lemma {:induction false} RunToken(states: seq<State>)
    requires TameRun(states)
    ensures TokenInv(states[|states| - 1])
    decreases |states|
  {
    hide TokenInv, Apply;
    if |states| == 1 {
      StartToken(states[0]);
    } else {
      var k := |states| - 1;
      TamePrefix(states);
      RunToken(states[..k]);
      assert TameStep(states[k - 1], states[k]);
      var a :| Tame(states[k - 1], a) && states[k] == Apply(states[k - 1], a);
      TokenStep(states[k - 1], a);
    }
  }

  lemma TamePrefix(states: seq<State>)
    requires TameRun(states) && |states| > 1
    ensures TameRun(states[..|states| - 1])
  {
    var before := states[..|states| - 1];
    forall i | 0 < i < |before|
      ensures TameStep(before[i - 1], before[i])
    {
      assert TameStep(states[i - 1], states[i]);
    }
  }
}
