/** Where race freedom stops: exactly which steps, as long as no connection has dropped before its first send, can
    lead to two threads of one client about to touch mLastSendTick or mLastRTT. */
module EchoRaces {
  import opened EchoModel
  import opened EchoToken
  import opened EchoTheorems
  import opened EchoReconnectRace
  import opened EchoFailures
  import PacketCodec

  ghost predicate Race(s: State) {
    exists i, j :: 0 <= i < |s.links| && 0 <= j < |s.links| && i != j && s.links[i].client == s.links[j].client
      && Touches(s.links[i].pc) && Touches(s.links[j].pc)
  }

  ghost predicate PatientPath(path: seq<State>) {
    path != [] && forall i {:trigger path[i]} :: 0 < i < |path| ==> PatientStep(path[i - 1], path[i])
  }

  /** Patient steps can lead on to a race. */
  ghost predicate CanRace(s: State) {
    exists path: seq<State> :: PatientPath(path) && path[0] == s && Race(path[|path| - 1])
  }

  lemma RaceBy(s: State, s': State)
    requires Leads(s, s') && Race(s')
    ensures CanRace(s)
  {
    hide Race;
    var path: seq<State> :| Path(path) && path[0] == s && path[|path| - 1] == s';
    forall i | 0 < i < |path|
      ensures PatientStep(path[i - 1], path[i])
    {
      assert TameStep(path[i - 1], path[i]);
      var a :| Tame(path[i - 1], a) && path[i] == Apply(path[i - 1], a);
      assert Patient(path[i - 1], a);
    }
    assert PatientPath(path);
  }

  // ---- A drop that can lead to a race ----

  /** Behind the bytes kept a packet with this tick is never read. */
  ghost predicate Blocks(kept: seq<PacketCodec.byte>, tick: nat) {
    forall key: PacketCodec.byte :: !Read(kept, tick, key).Delivers?
  }

  /** Thread j has connected and is before its first send; if it is at the send, its packet would be read. */
  ghost predicate Collides(s: State, c: nat, j: int) {
    && 0 <= j < |s.links| && s.links[j].client == c && Opening(s.links[j].pc)
    && (s.links[j].pc.SendingFirst? ==> !Blocks(Kept(s, c), s.links[j].pc.tick))
  }

  /** A connection drops while another thread of its client is there. */
  ghost predicate Colliding(s: State, a: Action) {
    a.Drop? && a.k < |s.links| && exists j :: Collides(s, s.links[a.k].client, j)
  }

  /** The second OnDisconnect comes to its store. */
  lemma ComesToStore(o: State, c: nat, j: nat, k: nat) returns (s': State, m: nat)
    requires Pair(o, c, j, k) && o.links[k].pc.Dropped? && !o.clients[c].connected
    ensures Leads(o, s') && Pair(s', c, j, k) && Pair(s', c, m, k) && m != j && s'.kept == o.kept
    ensures s'.links[k].pc.StoringTick? && s'.links[j] == o.links[j] && s'.clients[c].connected
      && s'.clients[c].sock == m
    ensures s'.links[m] == Link(c, Receiving, true, [], Quiet, [], 0, 0)
  {
    hide Leads, Tick;
    LeadsHere(o);
    var s1 := ComesToConnect(o, o, c, j, k);
    var s2;
    s2, m := ConnectsAgain(o, s1, c, j, k);
    s' := Apply(s2, Work(k, true));
    Then(o, s2, Work(k, true), s');
  }

  /** The first comes to its own. */
  lemma BothStore(o: State, s: State, c: nat, j: nat, k: nat) returns (s': State)
    requires Leads(o, s) && Pair(s, c, j, k) && s.links[k].pc.StoringTick?
    requires s.links[j].pc.MarkingConnected? || s.links[j].pc.ReadingClock? || s.links[j].pc.StoringTick?
    ensures Leads(o, s') && Race(s')
  {
    hide Leads, Tick;
    s' := s;
    if s'.links[j].pc.MarkingConnected? {
      var s1 := Apply(s', Work(j, true));
      Then(o, s', Work(j, true), s1);
      s' := s1;
    }
    if s'.links[j].pc.ReadingClock? {
      var s1 := Apply(s', Work(j, true));
      Then(o, s', Work(j, true), s1);
      s' := s1;
    }
    assert Touches(s'.links[j].pc) && Touches(s'.links[k].pc);
  }

  /** The first sends on the new connection, and its packet comes back before the second stores. */
  lemma ComparesMeanwhile(o: State, s: State, c: nat, j: nat, k: nat, m: nat) returns (s': State)
    requires Leads(o, s) && Pair(s, c, j, k) && Pair(s, c, m, k) && m != j && s.links[k].pc.StoringTick?
    requires s.clients[c].connected && s.clients[c].sock == m
      && s.links[m] == Link(c, Receiving, true, [], Quiet, [], 0, 0)
    requires s.links[j].pc.SendingFirst? && !Blocks(Kept(s, c), s.links[j].pc.tick)
    ensures Leads(o, s') && Race(s')
  {
    hide Leads, Read;
    var key: PacketCodec.byte :| Read(Kept(s, c), s.links[j].pc.tick, key).Delivers?;
    hide Blocks;
    var s1 := SendsOn(o, s, c, j, k, m);
    s' := ComparesThen(o, s1, c, k, m, key);
  }

  lemma SendsOn(o: State, s: State, c: nat, j: nat, k: nat, m: nat) returns (s': State)
    requires Leads(o, s) && Pair(s, c, j, k) && Pair(s, c, m, k) && m != j && s.links[j].pc.SendingFirst?
    requires s.clients[c].connected && s.clients[c].sock == m
      && s.links[m] == Link(c, Receiving, true, [], Quiet, [], 0, 0)
    ensures Leads(o, s') && Pair(s', c, m, k) && s'.links[k] == s.links[k] && Kept(s', c) == Kept(s, c)
    ensures s'.links[m] == Link(c, Receiving, true, [s.links[j].pc.tick], Quiet, [], 0, 0)
  {
    hide Leads;
    s' := Apply(s, Work(j, true));
    Then(o, s, Work(j, true), s');
  }

  lemma ComparesThen(o: State, s: State, c: nat, k: nat, m: nat, key: PacketCodec.byte) returns (s': State)
    requires Leads(o, s) && Pair(s, c, m, k) && s.links[k].pc.StoringTick? && s.links[m].pc.Receiving?
    requires s.links[m].up && s.links[m].toServer != [] && s.links[m].server.Quiet? && s.links[m].toClient == []
    requires Read(Kept(s, c), s.links[m].toServer[0], key).Delivers?
    ensures Leads(o, s') && Race(s')
  {
    hide Leads, Read, Kept;
    s' := ArrivesKeeping(o, s, c, k, m, key);
    assert Touches(s'.links[m].pc) && Touches(s'.links[k].pc);
  }

  lemma ArrivesKeeping(o: State, s: State, c: nat, k: nat, m: nat, key: PacketCodec.byte) returns (s': State)
    requires Leads(o, s) && Pair(s, c, m, k) && s.links[m].pc.Receiving?
    requires s.links[m].up && s.links[m].toServer != [] && s.links[m].server.Quiet? && s.links[m].toClient == []
    requires Read(Kept(s, c), s.links[m].toServer[0], key).Delivers?
    ensures Leads(o, s') && Pair(s', c, m, k) && s'.links[k] == s.links[k] && s'.links[m].pc.Comparing?
  {
    hide Leads, Read;
    var s1 := Apply(s, ServerReceive(m));
    Then(o, s, ServerReceive(m), s1);
    var s2 := Apply(s1, ServerSend(m));
    Then(o, s1, ServerSend(m), s2);
    s' := Apply(s2, Receive(m, key));
    Then(o, s2, Receive(m, key), s');
  }

  /** In any state at all: a drop with no bytes of a packet, while another thread of the client is there, can be
      followed by tame steps to a race. */
  lemma CollisionRaces(s: State, k: nat, key: PacketCodec.byte, j: nat) returns (s': State)
    requires Enabled(s, Drop(k, 0, key)) && Collides(s, s.links[k].client, j)
    ensures Leads(Apply(s, Drop(k, 0, key)), s') && Race(s')
  {
    var c := s.links[k].client;
    var o := Apply(s, Drop(k, 0, key));
    assert o.links[j] == s.links[j] && Kept(o, c) == Kept(s, c);
    hide Leads, Blocks, Apply, Race;
    var s1, m := ComesToStore(o, c, j, k);
    assert Kept(s1, c) == Kept(s, c);
    if s.links[j].pc.SendingFirst? {
      s' := ComparesMeanwhile(o, s1, c, j, k, m);
    } else {
      s' := BothStore(o, s1, c, j, k);
    }
  }

  /** With one client, from a start: the new connection drops before its thread has marked it connected, and two
      threads are about to store. All other steps are tame. */
  lemma RaceHappens() returns (states: seq<State>, k: nat)
    ensures OneUntame(states, k, Drop(1, 0, 0)) && |states[0].clients| == 1 && Race(states[|states| - 1])
  {
    hide Leads, IsStart, OneUntame, Race;
    OneIsStart(0);
    var s := DropsEarly();
    var s' := CollisionRaces(s, 1, 0, 0);
    states, k := Joined(One(0), s, Drop(1, 0, 0), s');
  }

  // ---- A drop that cannot ----

  /** Packets of connection i, and the one thread j is about to send. */
  function Coming(links: seq<Link>, i: nat, j: nat): nat
    requires i < |links| && j < |links|
  {
    Tokens(links[i]) + if links[j].pc.SendingFirst? then 1 else 0
  }

  /** Of client c only thread w works. Thread j, if it has not yet sent, is about to send a packet with this tick;
      and while w has not sent its own, no other packet can come in, and that one is not read. */
  ghost predicate Lone(s: State, c: nat, w: nat, j: nat, tick: nat) {
    && c < |s.clients| && w < |s.links| && j < |s.links| && w != j && s.links[w].client == c == s.links[j].client
    && (forall i :: 0 <= i < |s.links| && s.links[i].client == c && i != w ==> Resting(s, c, w, j, tick, i))
    && (Disconnecting(s.links[w].pc) ==> !s.clients[c].connected)
    && (Disconnecting(s.links[w].pc) && s.links[j].pc.SendingFirst? ==> Blocks(Kept(s, c), tick))
    && (Opening(s.links[w].pc) ==> Waiting(s, c, w, j, tick))
  }

  /** A thread that touches nothing. */
  predicate Resting(s: State, c: nat, w: nat, j: nat, tick: nat, i: nat)
    requires c < |s.clients| && w < |s.links| && i < |s.links|
  {
    || Retired(s.links[i].pc)
    || (i == j && s.links[i].pc == SendingFirst(tick))
    || (Opening(s.links[w].pc) && i == s.clients[c].sock && s.links[i].pc.Receiving?)
  }

  /** The new connection waits for its first packet. */
  ghost predicate Waiting(s: State, c: nat, w: nat, j: nat, tick: nat)
    requires c < |s.clients| && w < |s.links| && j < |s.links|
  {
    var m := s.clients[c].sock;
    && 0 <= m < |s.links| && m != w && m != j && s.links[m].client == c && s.links[m].pc.Receiving?
    && Carries(s.links[m], tick) && Coming(s.links, m, j) <= 1
    && (Coming(s.links, m, j) == 1 ==> Blocks(Kept(s, c), tick))
  }

  lemma LoneTouches(s: State, c: nat, w: nat, j: nat, tick: nat, i: nat)
    requires Lone(s, c, w, j, tick) && i < |s.links| && s.links[i].client == c && Touches(s.links[i].pc)
    ensures i == w
  {
  }

  /** The client's connections and fields are as before. */
  lemma LoneElsewhere(s: State, s': State, c: nat, w: nat, j: nat, tick: nat)
    requires Lone(s, c, w, j, tick) && Elsewhere(s, s', c) && Kept(s', c) == Kept(s, c)
    ensures Lone(s', c, w, j, tick)
  {
    hide Blocks, Kept;
    forall i | 0 <= i < |s'.links| && s'.links[i].client == c && i != w
      ensures Resting(s', c, w, j, tick, i)
    {
      assert Resting(s, c, w, j, tick, i);
    }
  }

  /** The threads of the client stand as they stood, but for w. */
  predicate SamePcs(s: State, s': State, c: nat, w: nat) {
    && |s.links| <= |s'.links|
    && (forall i :: 0 <= i < |s.links| ==> s'.links[i].client == s.links[i].client)
    && (forall i :: 0 <= i < |s.links| && s.links[i].client == c && i != w ==> s'.links[i].pc == s.links[i].pc)
    && (forall i :: |s.links| <= i < |s'.links| ==> s'.links[i].client != c)
  }

  /** The worker receives, or handles what it has received. */
  lemma LoneBusy(s: State, s': State, c: nat, w: nat, j: nat, tick: nat)
    requires Lone(s, c, w, j, tick) && SamePcs(s, s', c, w) && c < |s'.clients|
    requires (s.links[w].pc.Receiving? || InReceive(s.links[w].pc))
      && (s'.links[w].pc.Receiving? || InReceive(s'.links[w].pc))
    ensures Lone(s', c, w, j, tick)
  {
    hide Blocks, Kept, Waiting;
    forall i | 0 <= i < |s'.links| && s'.links[i].client == c && i != w
      ensures Resting(s', c, w, j, tick, i)
    {
      assert Resting(s, c, w, j, tick, i);
    }
  }

  lemma ReceivePcs(s: State, k: nat)
    requires k < |s.links| && InReceive(s.links[k].pc) && s.links[k].client < |s.clients|
    ensures
      var c, s' := s.links[k].client, OnReceiveStep(s, k);
      && SamePcs(s, s', c, k) && |s'.links| == |s.links| && c < |s'.clients|
      && (s'.links[k].pc.Receiving? || InReceive(s'.links[k].pc))
  {
    hide Wrap32, Wrap64, Tick;
  }

  /** Changes of one connection by the network, the server or its own recv. */
  lemma LoneTransport(s: State, a: Action, c: nat, w: nat, j: nat, tick: nat)
    requires Enabled(s, a) && (a.Receive? || a.ServerReceive? || a.ServerSend? || a.Cut?)
    requires Lone(s, c, w, j, tick) && s.links[a.k].client == c
    ensures Lone(Apply(s, a), c, w, j, tick)
  {
    var k, s' := a.k, Apply(s, a);
    TransportLink(s, a);
    TransportPc(s, a);
    if k != w {
      assert Resting(s, c, w, j, tick, k);
    }
    if Opening(s.links[w].pc) && k == s.clients[c].sock {
      WaitingTransport(s, a, c, w, j, tick);
      hide Apply, Read, Blocks;
      LoneWaits(s, s', c, w, j, tick, k);
    } else if s.links[k].pc.Receiving? {
      hide Apply, Read, Blocks;
      LoneBusy(s, s', c, w, j, tick);
    } else {
      KeptStays(s, a);
      hide Apply, Read, Blocks;
      LoneAside(s, s', c, w, j, tick, k);
    }
  }

  /** A connection other than the one that waits changes, and its thread does not move. */
  lemma LoneAside(s: State, s': State, c: nat, w: nat, j: nat, tick: nat, k: nat)
    requires Lone(s, c, w, j, tick) && k < |s.links| == |s'.links| && s'.links == s.links[k := s'.links[k]]
    requires s'.links[k].client == s.links[k].client && s'.links[k].pc == s.links[k].pc && s'.clients == s.clients
    requires s'.kept == s.kept && (Opening(s.links[w].pc) ==> k != s.clients[c].sock)
    ensures Lone(s', c, w, j, tick)
  {
    hide Blocks;
    forall i | 0 <= i < |s'.links| && s'.links[i].client == c && i != w
      ensures Resting(s', c, w, j, tick, i)
    {
      assert Resting(s, c, w, j, tick, i);
    }
  }

  /** The connection that waits changes. */
  lemma LoneWaits(s: State, s': State, c: nat, w: nat, j: nat, tick: nat, k: nat)
    requires Lone(s, c, w, j, tick) && k < |s.links| == |s'.links| && s'.links == s.links[k := s'.links[k]]
    requires s'.links[k].client == s.links[k].client && s'.links[k].pc == s.links[k].pc && s'.clients == s.clients
    requires Opening(s.links[w].pc) && k == s.clients[c].sock && Waiting(s', c, w, j, tick)
    ensures Lone(s', c, w, j, tick)
  {
    hide Blocks, Waiting;
    assert k != w by { assert Waiting(s, c, w, j, tick); KNotW(s, c, w, j, tick); }
    forall i | 0 <= i < |s'.links| && s'.links[i].client == c && i != w
      ensures Resting(s', c, w, j, tick, i)
    {
      assert Resting(s, c, w, j, tick, i);
    }
  }

  lemma KNotW(s: State, c: nat, w: nat, j: nat, tick: nat)
    requires c < |s.clients| && w < |s.links| && j < |s.links| && Waiting(s, c, w, j, tick)
    ensures s.clients[c].sock != w && s.clients[c].sock != j
  {
  }

  /** What waits is swallowed, or on its way. */
  lemma WaitingTransport(s: State, a: Action, c: nat, w: nat, j: nat, tick: nat)
    requires Enabled(s, a) && (a.Receive? || a.ServerReceive? || a.ServerSend? || a.Cut?)
    requires c < |s.clients| && w < |s.links| && j < |s.links| && Waiting(s, c, w, j, tick) && a.k == s.clients[c].sock
    ensures |Apply(s, a).links| == |s.links| && Apply(s, a).clients == s.clients && Waiting(Apply(s, a), c, w, j, tick)
    ensures Apply(s, a).links[a.k].pc == s.links[a.k].pc
  {
    hide Read;
    if a.Receive? {
      assert Coming(s.links, a.k, j) == 1 && s.links[a.k].toClient[0] == tick;
      assert !Read(Kept(s, c), tick, a.key).Delivers?;
      hide Blocks;
    } else {
      KeptStays(s, a);
      hide Blocks;
    }
  }

  lemma LoneDrop(s: State, a: Action, c: nat, w: nat, j: nat, tick: nat)
    requires Patient(s, a) && a.Drop? && Lone(s, c, w, j, tick) && s.links[a.k].client == c
    ensures Lone(Apply(s, a), c, w, j, tick)
  {
    var s' := Apply(s, a);
    assert !Opening(s.links[w].pc) && !Opening(s.links[j].pc);
    assert s'.links == s.links[a.k := s.links[a.k].(pc := Dropped, up := false)];
    hide Blocks, Kept, Left, Waiting;
    forall i | 0 <= i < |s'.links| && s'.links[i].client == c && i != w
      ensures Resting(s', c, w, j, tick, i)
    {
      assert Resting(s, c, w, j, tick, i);
    }
  }

  /** The worker on its way to Connect. */
  lemma LoneLeaves(s: State, c: nat, w: nat, j: nat, tick: nat, ok: bool)
    requires Lone(s, c, w, j, tick) && Enabled(s, Work(w, ok)) && Disconnecting(s.links[w].pc)
    requires !(s.links[w].pc.Connecting? && ok)
    ensures Lone(OnDisconnectStep(s, w, ok), c, w, j, tick)
  {
    var s' := OnDisconnectStep(s, w, ok);
    LeavesOn(s, c, w, ok);
    hide OnDisconnectStep, Blocks, Kept, Waiting;
    forall i | 0 <= i < |s'.links| && s'.links[i].client == c && i != w
      ensures Resting(s', c, w, j, tick, i)
    {
      assert Resting(s, c, w, j, tick, i);
    }
    assert Kept(s', c) == Kept(s, c) by { SameKept(s, s', c); }
  }

  lemma SameKept(s: State, s': State, c: nat)
    requires s'.kept == s.kept
    ensures Kept(s', c) == Kept(s, c)
  {
  }

  lemma LeavesOn(s: State, c: nat, w: nat, ok: bool)
    requires Enabled(s, Work(w, ok)) && Disconnecting(s.links[w].pc) && s.links[w].client == c
      && !s.clients[c].connected
    requires !(s.links[w].pc.Connecting? && ok)
    ensures
      var s' := OnDisconnectStep(s, w, ok);
      && |s'.links| == |s.links| && s'.links == s.links[w := s.links[w].(pc := s'.links[w].pc)] && s'.kept == s.kept
      && |s'.clients| == |s.clients| && !s'.clients[c].connected && Disconnecting(s'.links[w].pc)
  {
    hide Wrap32, Wrap64, Tick, SendTo, Target;
  }

  /** It connects. */
  lemma LoneConnects(s: State, c: nat, w: nat, j: nat, tick: nat)
    requires Lone(s, c, w, j, tick) && Enabled(s, Work(w, true)) && s.links[w].pc.Connecting?
    ensures Lone(OnDisconnectStep(s, w, true), c, w, j, tick)
  {
    var s', m := OnDisconnectStep(s, w, true), |s.links|;
    assert s'.links == s.links[w := s.links[w].(pc := MarkingConnected)] +
      [Link(c, Receiving, true, [], Quiet, [], 0, 0)];
    assert s'.clients[c].sock == m && s'.kept == s.kept;
    hide OnDisconnectStep, Blocks;
    SameKept(s, s', c);
    hide Kept;
    forall i | 0 <= i < |s'.links| && s'.links[i].client == c && i != w
      ensures Resting(s', c, w, j, tick, i)
    {
      if i < m {
        assert Resting(s, c, w, j, tick, i);
      }
    }
  }

  /** It goes on to its first send. */
  lemma LoneOpens(s: State, c: nat, w: nat, j: nat, tick: nat, ok: bool)
    requires Lone(s, c, w, j, tick) && Enabled(s, Work(w, ok)) && Opening(s.links[w].pc) && !s.links[w].pc.SendingFirst?
    ensures Lone(OnDisconnectStep(s, w, ok), c, w, j, tick)
  {
    var s' := OnDisconnectStep(s, w, ok);
    OpeningFrame(s, w, ok);
    StaysOpening(s, w, ok);
    hide OnDisconnectStep, Blocks;
    SameKept(s, s', c);
    hide Kept;
    forall i | 0 <= i < |s'.links| && s'.links[i].client == c && i != w
      ensures Resting(s', c, w, j, tick, i)
    {
      assert Resting(s, c, w, j, tick, i);
    }
  }

  lemma StaysOpening(s: State, w: nat, ok: bool)
    requires Enabled(s, Work(w, ok)) && Opening(s.links[w].pc) && !s.links[w].pc.SendingFirst?
    ensures w < |OnDisconnectStep(s, w, ok).links| && Opening(OnDisconnectStep(s, w, ok).links[w].pc)
  {
    hide Wrap32, Wrap64, Tick, SendTo, Target;
  }

  /** It sends, and the new connection's thread is the worker from now on. */
  lemma LoneSends(s: State, c: nat, w: nat, j: nat, tick: nat, ok: bool) returns (m: nat)
    requires Lone(s, c, w, j, tick) && Enabled(s, Work(w, ok)) && s.links[w].pc.SendingFirst?
    ensures Lone(OnDisconnectStep(s, w, ok), c, m, j, tick)
  {
    var s' := OnDisconnectStep(s, w, ok);
    m := s.clients[c].sock;
    SendsPcs(s, w, ok);
    hide OnDisconnectStep, Blocks, Kept, Waiting;
    KNotW(s, c, w, j, tick);
    WaitsThere(s, c, w, j, tick);
    forall i | 0 <= i < |s'.links| && s'.links[i].client == c && i != m
      ensures Resting(s', c, m, j, tick, i)
    {
      assert i != w ==> Resting(s, c, w, j, tick, i);
    }
  }

  lemma WaitsThere(s: State, c: nat, w: nat, j: nat, tick: nat)
    requires c < |s.clients| && w < |s.links| && j < |s.links| && Waiting(s, c, w, j, tick)
    ensures
      var m := s.clients[c].sock;
      0 <= m < |s.links| && s.links[m].client == c && s.links[m].pc.Receiving?
  {
  }

  /** A first send moves its own thread only. */
  lemma SendsPcs(s: State, k: nat, ok: bool)
    requires Enabled(s, Work(k, ok)) && s.links[k].pc.SendingFirst?
    ensures
      var c, s' := s.links[k].client, OnDisconnectStep(s, k, ok);
      && SamePcs(s, s', c, k) && |s'.links| == |s.links| && c < |s'.clients| && s'.links[k].pc.FreeingFirst?
      && s'.kept == s.kept && s'.clients[c].sock == s.clients[c].sock
      && s'.clients[c].connected == s.clients[c].connected
  {
    hide Wrap32, Wrap64, Tick;
  }

  /** Thread j sends: its packet now waits where it was awaited, or is nowhere. */
  lemma LoneArrives(s: State, c: nat, w: nat, j: nat, tick: nat, ok: bool)
    requires Lone(s, c, w, j, tick) && Enabled(s, Work(j, ok)) && s.links[j].pc.SendingFirst?
    ensures Lone(OnDisconnectStep(s, j, ok), c, w, j, tick)
  {
    var s' := OnDisconnectStep(s, j, ok);
    assert Resting(s, c, w, j, tick, j);
    SendsPcs(s, j, ok);
    if Opening(s.links[w].pc) {
      WaitingArrives(s, c, w, j, tick, ok);
    }
    hide OnDisconnectStep, Blocks, Waiting;
    SameKept(s, s', c);
    forall i | 0 <= i < |s'.links| && s'.links[i].client == c && i != w
      ensures Resting(s', c, w, j, tick, i)
    {
      assert Resting(s, c, w, j, tick, i);
    }
  }

  lemma WaitingArrives(s: State, c: nat, w: nat, j: nat, tick: nat, ok: bool)
    requires c < |s.clients| && w < |s.links| && j < |s.links| && Waiting(s, c, w, j, tick) && s.links[j].client == c
    requires Enabled(s, Work(j, ok)) && s.links[j].pc == SendingFirst(tick)
    ensures |OnDisconnectStep(s, j, ok).links| == |s.links| && |OnDisconnectStep(s, j, ok).clients| == |s.clients|
    ensures Waiting(OnDisconnectStep(s, j, ok), c, w, j, tick)
  {
    hide Wrap32, Wrap64, Tick, Blocks;
  }

  /** A retired thread counts on. */
  lemma LoneRetired(s: State, c: nat, w: nat, j: nat, tick: nat, k: nat, ok: bool)
    requires Lone(s, c, w, j, tick) && Enabled(s, Work(k, ok)) && s.links[k].client == c && Retired(s.links[k].pc)
    ensures Lone(OnDisconnectStep(s, k, ok), c, w, j, tick)
  {
    var s' := OnDisconnectStep(s, k, ok);
    CountingFrame(s, k, ok);
    RetiredStays(s, k, ok);
    hide OnDisconnectStep, Blocks;
    SameKept(s, s', c);
    hide Kept;
    if Opening(s.links[w].pc) {
      assert s.clients[c].sock != k;
    }
    forall i | 0 <= i < |s'.links| && s'.links[i].client == c && i != w
      ensures Resting(s', c, w, j, tick, i)
    {
      assert Resting(s, c, w, j, tick, i);
    }
  }

  lemma RetiredStays(s: State, k: nat, ok: bool)
    requires Enabled(s, Work(k, ok)) && Retired(s.links[k].pc)
    ensures k < |OnDisconnectStep(s, k, ok).links| && Retired(OnDisconnectStep(s, k, ok).links[k].pc)
  {
    hide Wrap32, Wrap64, Tick, SendTo, Target;
  }

  lemma LoneWork(s: State, c: nat, w: nat, j: nat, tick: nat, k: nat, ok: bool) returns (w': nat)
    requires Lone(s, c, w, j, tick) && Enabled(s, Work(k, ok)) && s.links[k].client == c
    ensures Lone(Step(s, k, ok), c, w', j, tick)
  {
    w' := w;
    if k != w {
      assert Resting(s, c, w, j, tick, k);
    }
    var pc := s.links[k].pc;
    hide Lone, OnReceiveStep, OnDisconnectStep;
    if InReceive(pc) {
      WorkerReceives(s, c, w, j, tick, k);
    } else if Retired(pc) {
      LoneRetired(s, c, w, j, tick, k, ok);
    } else if k != w {
      LoneArrives(s, c, w, j, tick, ok);
    } else if pc.SendingFirst? {
      w' := LoneSends(s, c, w, j, tick, ok);
    } else if Opening(pc) {
      LoneOpens(s, c, w, j, tick, ok);
    } else if pc.Connecting? && ok {
      LoneConnects(s, c, w, j, tick);
    } else {
      LoneLeaves(s, c, w, j, tick, ok);
    }
  }

  lemma WorkerReceives(s: State, c: nat, w: nat, j: nat, tick: nat, k: nat)
    requires Lone(s, c, w, j, tick) && k < |s.links| && s.links[k].client == c && InReceive(s.links[k].pc)
    ensures Lone(OnReceiveStep(s, k), c, w, j, tick)
  {
    ReceivePcs(s, k);
    hide OnReceiveStep, InReceive;
    LoneBusy(s, OnReceiveStep(s, k), c, w, j, tick);
  }

  /** Any patient step that concerns the client. */
  lemma LoneActs(s: State, a: Action, c: nat, w: nat, j: nat, tick: nat) returns (w': nat)
    requires Lone(s, c, w, j, tick) && Patient(s, a) && Acts(s, a, c)
    ensures Lone(Apply(s, a), c, w', j, tick)
  {
    hide Lone, Step;
    w' := w;
    match a
    case Work(k, ok) =>
      w' := LoneWork(s, c, w, j, tick, k, ok);
    case Drop(_, _, _) =>
      hide Apply;
      LoneDrop(s, a, c, w, j, tick);
    case Receive(_, _) =>
      hide Apply;
      LoneTransport(s, a, c, w, j, tick);
    case ServerReceive(_) =>
      hide Apply;
      LoneTransport(s, a, c, w, j, tick);
    case ServerSend(_) =>
      hide Apply;
      LoneTransport(s, a, c, w, j, tick);
    case Cut(_) =>
      hide Apply;
      LoneTransport(s, a, c, w, j, tick);
    case _ =>
  }

  // ---- All clients ----

  /** All clients are as CountInv says, but for one, which is lone. With c = -1 there is none. */
  ghost predicate CountBut(s: State, c: int) {
    && WellFormed(s) && c < |s.clients| && (c >= 0 ==> SomeLone(s, c))
    && forall d :: 0 <= d < |s.clients| && d != c ==> ClientInv(s.now, s.clients[d], d, s.links)
  }

  ghost predicate SomeLone(s: State, c: nat) { exists w, j, tick :: Lone(s, c, w, j, tick) }

  lemma NoRace(s: State, c: int)
    requires CountBut(s, c)
    ensures !Race(s)
  {
    hide ClientInv, Lone;
    if Race(s) {
      var i, j :|
        && 0 <= i < |s.links| && 0 <= j < |s.links| && i != j && s.links[i].client == s.links[j].client
        && Touches(s.links[i].pc) && Touches(s.links[j].pc);
      var d := s.links[i].client;
      if d == c {
        var w, l, tick :| Lone(s, d, w, l, tick);
        LoneTouches(s, d, w, l, tick, i);
        LoneTouches(s, d, w, l, tick, j);
      } else {
        RaceFreeState(s.now, s.clients[d], d, s.links, i, j);
      }
    }
  }

  lemma LoneStep(s: State, a: Action, c: nat)
    requires WellFormed(s) && c < |s.clients| && SomeLone(s, c) && Patient(s, a)
    ensures SomeLone(Apply(s, a), c)
  {
    var w, j, tick :| Lone(s, c, w, j, tick);
    hide Lone;
    if Acts(s, a, c) {
      var w' := LoneActs(s, a, c, w, j, tick);
    } else {
      assert Enabled(s, a);
      hide Patient;
      StepElsewhere(s, a, c);
      KeptThere(s, a, c);
      hide Apply;
      LoneElsewhere(s, Apply(s, a), c, w, j, tick);
    }
  }

  lemma KeptThere(s: State, a: Action, c: nat)
    requires Enabled(s, a) && !Acts(s, a, c)
    ensures Kept(Apply(s, a), c) == Kept(s, c)
  {
    if !a.Receive? && !a.Drop? {
      KeptStays(s, a);
      hide Apply;
    } else {
      hide Read, Left, Incomplete;
    }
  }

  lemma CountButStep(s: State, a: Action, c: int)
    requires CountBut(s, c) && Patient(s, a)
    ensures CountBut(Apply(s, a), c)
  {
    assert Enabled(s, a);
    hide WellFormed, ClientInv, SomeLone, Apply, Patient;
    StaysWellFormed(s, a);
    if c >= 0 {
      LoneStep(s, a, c);
    }
    forall d | 0 <= d < |s.clients| && d != c
      ensures ClientInv(Apply(s, a).now, Apply(s, a).clients[d], d, Apply(s, a).links)
    {
      OwnCount(s, a, d);
    }
  }

  lemma {:induction false} CountButAlong(path: seq<State>, c: int)
    requires PatientPath(path) && CountBut(path[0], c)
    ensures CountBut(path[|path| - 1], c)
    decreases |path|
  {
    hide CountBut, Apply;
    if |path| > 1 {
      var k := |path| - 1;
      CountButAlong(path[..k], c);
      assert PatientStep(path[k - 1], path[k]);
      var a :| Patient(path[k - 1], a) && path[k] == Apply(path[k - 1], a);
      CountButStep(path[k - 1], a, c);
    }
  }

  lemma CannotRace(s: State, c: int)
    requires CountBut(s, c)
    ensures !CanRace(s)
  {
    hide CountBut, Race;
    forall path: seq<State> | PatientPath(path) && path[0] == s
      ensures !Race(path[|path| - 1])
    {
      CountButAlong(path, c);
      NoRace(path[|path| - 1], c);
    }
  }

  // ---- Exactly when ----

  /** In a patient run nothing has come in on the connection being opened, and nobody else works. */
  lemma BeingOpened(s: State, k: nat, j: nat)
    requires CountInv(s) && k < |s.links| && s.links[k].pc.Receiving?
    requires j < |s.links| && s.links[j].client == s.links[k].client && Opening(s.links[j].pc)
    ensures Fresh(s.links[k]) && s.links[k].client < |s.clients|
    ensures forall i :: 0 <= i < |s.links| && s.links[i].client == s.links[k].client && i != j && i != k ==>
      Retired(s.links[i].pc)
  {
    var c := s.links[k].client;
    CountOf(s, k);
    hide CountInv;
    OnlyOpening(s.now, s.clients[c], c, s.links, j, k);
  }

  lemma OnlyOpening(now: nat, cl: Client, c: nat, links: seq<Link>, j: nat, k: nat)
    requires ClientInv(now, cl, c, links) && j < |links| && links[j].client == c && Opening(links[j].pc)
    requires k < |links| && links[k].client == c && links[k].pc.Receiving?
    ensures Fresh(links[k])
    ensures forall i :: 0 <= i < |links| && links[i].client == c && i != j && i != k ==> Retired(links[i].pc)
  {
    WorkerIsOwner(now, cl, c, links, j);
    assert OtherOk(cl, links, k);
    forall i | 0 <= i < |links| && links[i].client == c && i != j && i != k
      ensures Retired(links[i].pc)
    {
      assert OtherOk(cl, links, i);
    }
  }

  /** A drop while the other thread is at its first send with a packet that nobody would read. */
  lemma BlockedDrop(s: State, a: Action, j: nat)
    requires CountInv(s) && Enabled(s, a) && a.Drop? && !Colliding(s, a)
    requires j < |s.links| && s.links[j].client == s.links[a.k].client && Opening(s.links[j].pc)
    ensures CountBut(Apply(s, a), s.links[a.k].client)
  {
    var c, s' := s.links[a.k].client, Apply(s, a);
    BeingOpened(s, a.k, j);
    assert !Collides(s, c, j);
    hide Blocks, ClientInv;
    DropsLone(s, a, j);
    hide Apply, Enabled, Lone, Fresh;
    StaysWellFormed(s, a);
    forall d | 0 <= d < |s.clients| && d != c
      ensures ClientInv(s'.now, s'.clients[d], d, s'.links)
    {
      StepElsewhere(s, a, d);
      ElsewhereKeeps(s, s', d);
    }
  }

  lemma DropsLone(s: State, a: Action, j: nat)
    requires Enabled(s, a) && a.Drop? && Fresh(s.links[a.k]) && s.links[a.k].client < |s.clients|
    requires j < |s.links| && s.links[j].client == s.links[a.k].client && s.links[j].pc.SendingFirst?
    requires Blocks(Kept(s, s.links[a.k].client), s.links[j].pc.tick)
    requires forall i :: 0 <= i < |s.links| && s.links[i].client == s.links[a.k].client && i != j && i != a.k ==>
      Retired(s.links[i].pc)
    ensures Lone(Apply(s, a), s.links[a.k].client, a.k, j, s.links[j].pc.tick)
  {
    hide Blocks, Left;
    var c, s' := s.links[a.k].client, Apply(s, a);
    assert a.cut == 0;
    assert s'.links == s.links[a.k := s.links[a.k].(pc := Dropped, up := false)] && s'.kept == s.kept;
    SameKept(s, s', c);
    hide Apply, Enabled, Kept;
    forall i | 0 <= i < |s'.links| && s'.links[i].client == c && i != a.k
      ensures Resting(s', c, a.k, j, s.links[j].pc.tick, i)
    {
    }
  }

  lemma CountIsBut(s: State)
    requires CountInv(s)
    ensures CountBut(s, -1)
  {
    hide ClientInv;
  }

  lemma CollidingRaces(s: State, a: Action)
    requires CountInv(s) && Enabled(s, a) && Colliding(s, a)
    ensures CanRace(Apply(s, a))
  {
    var c := s.links[a.k].client;
    var j :| Collides(s, c, j);
    BeingOpened(s, a.k, j);
    hide CountInv, CanRace, Blocks;
    assert a.cut == 0;
    assert a == Drop(a.k, 0, a.key);
    hide Apply, Leads, Race;
    var s' := CollisionRaces(s, a.k, a.key, j);
    RaceBy(Apply(s, a), s');
  }

  /** Exactly which step, after a run in which no connection has dropped before its first send, can be followed by
      such steps to a race: a drop while another thread of the client has connected and is before its first
      send, unless it is at that send and its packet would not be read behind what is left in the buffer. */
  lemma RacesExactly(states: seq<State>, a: Action)
    requires PatientRun(states) && Enabled(states[|states| - 1], a)
    ensures var s := states[|states| - 1]; CanRace(Apply(s, a)) <==> Colliding(s, a)
  {
    var s := states[|states| - 1];
    RunCount(states);
    hide PatientRun, CountInv, CanRace, CountBut, Apply;
    if Colliding(s, a) {
      hide Colliding;
      CollidingRaces(s, a);
    } else if Patient(s, a) {
      hide Colliding;
      CountStep(s, a);
      CountIsBut(Apply(s, a));
      CannotRace(Apply(s, a), -1);
    } else {
      var j :| 0 <= j < |s.links| && s.links[j].client == s.links[a.k].client && Opening(s.links[j].pc);
      hide Colliding;
      BlockedDrop(s, a, j);
      CannotRace(Apply(s, a), s.links[a.k].client);
    }
  }
}
