/** The echo test's token invariant: as long as no connection drops before its first packet has been sent, each
    connected client has exactly one packet, and the RTTs it adds measure disjoint intervals, whatever ticks the
    packets carry. */
module EchoToken {
  import opened EchoModel

  // ---- Tick arithmetic ----

  /** The 32-bit difference of two ticks never exceeds the true time between them, and is that time
      exactly when it is below 2^32, across wrap-around too. */
  lemma TickDifference(t0: nat, t1: nat)
    requires t0 <= t1
    ensures Tick(t0) == t0 % 0x1_0000_0000 && Wrap32(Tick(t1) - Tick(t0)) == (Tick(t1) - Tick(t0)) % 0x1_0000_0000
    ensures Wrap32(Tick(t1) - Tick(t0)) <= t1 - t0
    ensures Wrap32(Tick(t1) - Tick(t0)) == t1 - t0 <==> t1 - t0 < 0x1_0000_0000
  {
    var a, b, d := t0 / TWO_POW_32, t1 / TWO_POW_32, t1 - t0;
    assert t0 == TWO_POW_32 * a + Tick(t0) && t1 == TWO_POW_32 * b + Tick(t1);
    var x := Tick(t1) - Tick(t0);
    assert x == TWO_POW_32 * (x / TWO_POW_32) + Wrap32(x);
    assert d == TWO_POW_32 * (b - a + x / TWO_POW_32) + Wrap32(x);
    assert b - a + x / TWO_POW_32 >= 0;
  }

  // ---- The invariant ----

  /** Each client has its one packet, and at most one thread at work. */
  ghost predicate CountInv(s: State) {
    WellFormed(s) && forall c :: 0 <= c < |s.clients| ==> ClientInv(s.now, s.clients[c], c, s.links)
  }

  // ---- Steps that leave a client alone ----

  lemma TimePasses(now: nat, now': nat, cl: Client, c: nat, links: seq<Link>)
    requires ClientInv(now, cl, c, links) && now <= now'
    ensures ClientInv(now', cl, c, links)
  {
  }

  /** Changes to connections of other clients. */
  lemma OthersKeep(now: nat, cl: Client, c: nat, links: seq<Link>, links': seq<Link>)
    requires ClientInv(now, cl, c, links) && |links'| >= |links|
    requires forall i :: 0 <= i < |links| && links[i].client == c ==> links'[i] == links[i]
    requires forall i :: 0 <= i < |links| ==> links'[i].client == links[i].client
    requires forall i :: |links| <= i < |links'| ==> links'[i].client != c
    ensures ClientInv(now, cl, c, links')
  {
    if cl.owner >= 0 {
      forall i | 0 <= i < |links'| && i != cl.owner && links'[i].client == c
        ensures OtherOk(cl, links', i)
      {
        assert OtherOk(cl, links, i);
      }
    }
  }

  // ---- Steps on a client's own connections ----

  /** The owner's connection changes; its thread is not between Connect and its first send. */
  lemma OwnerMoves(now: nat, cl: Client, cl': Client, c: nat, links: seq<Link>, link: Link)
    requires ClientInv(now, cl, c, links) && cl.owner >= 0 && cl'.owner == cl.owner
    requires Opening(links[cl.owner].pc) ==> Opening(link.pc) && cl'.sock == cl.sock
    requires OwnerOk(now, cl', c, links[cl.owner := link], link)
    requires cl'.rttTotal <= now - cl'.start && cl'.start <= now
    ensures ClientInv(now, cl', c, links[cl.owner := link])
  {
    var links' := links[cl.owner := link];
    forall i | 0 <= i < |links'| && i != cl'.owner && links'[i].client == c
      ensures OtherOk(cl', links', i)
    {
      assert OtherOk(cl, links, i);
    }
  }

  /** A connection other than the owner's changes and stays retired or fresh. */
  lemma OtherMoves(now: nat, cl: Client, c: nat, links: seq<Link>, k: nat, link: Link)
    requires ClientInv(now, cl, c, links) && k < |links| && k != cl.owner && links[k].client == c == link.client
    requires Retired(links[k].pc) ==> Retired(link.pc)
    requires Fresh(links[k]) && !Retired(links[k].pc) ==> Fresh(link)
    ensures ClientInv(now, cl, c, links[k := link])
  {
    var links' := links[k := link];
    assert OtherOk(cl, links, k);
    forall i | 0 <= i < |links'| && i != cl.owner && links'[i].client == c
      ensures OtherOk(cl, links', i)
    {
      assert OtherOk(cl, links, i);
    }
  }

  /** Connect succeeds. */
  lemma Connects(now: nat, cl: Client, c: nat, links: seq<Link>)
    requires ClientInv(now, cl, c, links) && cl.owner >= 0 && links[cl.owner].pc.Connecting?
    ensures
      ClientInv(now, cl.(sock := |links|), c,
                links[cl.owner := links[cl.owner].(pc := MarkingConnected)] +
                  [Link(c, Receiving, true, [], Quiet, [], 0, 0)])
  {
    var cl' := cl.(sock := |links|);
    var links' := links[cl.owner := links[cl.owner].(pc := MarkingConnected)] +
      [Link(c, Receiving, true, [], Quiet, [], 0, 0)];
    forall i | 0 <= i < |links'| && i != cl'.owner && links'[i].client == c
      ensures OtherOk(cl', links', i)
    {
      assert i < |links| ==> OtherOk(cl, links, i);
    }
  }

  /** The first packet goes out on the new connection, which takes over. */
  lemma FirstSend(now: nat, cl: Client, c: nat, links: seq<Link>)
    requires ClientInv(now, cl, c, links) && cl.owner >= 0 && links[cl.owner].pc.SendingFirst?
    ensures 0 <= cl.sock < |links| && cl.sock != cl.owner && cl.connected
    ensures
      var moved := links[cl.owner := links[cl.owner].(pc := FreeingFirst)];
      ClientInv(now, cl.(owner := cl.sock), c, moved[cl.sock := Put(moved[cl.sock], links[cl.owner].pc.tick)])
  {
    var k, m := cl.owner, cl.sock;
    var moved := links[k := links[k].(pc := FreeingFirst)];
    var links' := moved[m := Put(moved[m], links[k].pc.tick)];
    var cl' := cl.(owner := m);
    assert Fresh(links[m]);
    assert OwnerOk(now, cl', c, links', links'[m]);
    forall i | 0 <= i < |links'| && i != m && links'[i].client == c
      ensures OtherOk(cl', links', i)
    {
      assert i != k ==> OtherOk(cl, links, i);
    }
  }

  // ---- Every patient step ----

  /** The client of the connection whose thread moves, or that the network or the server changes. */
  predicate Acts(s: State, a: Action, c: nat) { Acted(s, a) < |s.links| && s.links[Acted(s, a)].client == c }

  ghost predicate InvFor(s: State, k: nat) {
    && k < |s.links| && s.links[k].client < |s.clients|
    && ClientInv(s.now, s.clients[s.links[k].client], s.links[k].client, s.links)
  }

  ghost predicate InvAfter(s: State, s': State, k: nat)
    requires k < |s.links|
  {
    var c := s.links[k].client;
    c < |s'.clients| && ClientInv(s'.now, s'.clients[c], c, s'.links)
  }

  /** A thread at work before its client's packet has moved on is the owner's. */
  lemma WorkerIsOwner(now: nat, cl: Client, c: nat, links: seq<Link>, k: nat)
    requires ClientInv(now, cl, c, links) && k < |links| && links[k].client == c
    requires !Retired(links[k].pc) && !(links[k].pc.Receiving? && Fresh(links[k]))
    ensures cl.owner == k && OwnerOk(now, cl, c, links, links[k])
  {
    assert cl.owner >= 0;
    assert cl.owner != k ==> OtherOk(cl, links, k);
  }

  /** A statement of connection k's thread changes only k and its client, and leaves k with its owner. */
  predicate OwnerAfter(s: State, s': State, k: nat) {
    && k < |s.links| == |s'.links| && s'.now == s.now && s'.kept == s.kept
    && var c := s.links[k].client;
    && c < |s.clients| == |s'.clients|
    && s'.clients == s.clients[c := s'.clients[c]] && s'.links == s.links[k := s'.links[k]]
    && s'.clients[c].owner == k && s'.links[k].client == c
    && OwnerOk(s.now, s'.clients[c], c, s'.links, s'.links[k])
  }

  predicate OwnerBefore(s: State, k: nat) {
    && k < |s.links| && s.links[k].client < |s.clients|
    && var c := s.links[k].client;
    s.clients[c].owner == k && OwnerOk(s.now, s.clients[c], c, s.links, s.links[k])
  }

  /** OnReceive up to the count of the RTT. */
  lemma OwnerClassifies(s: State, k: nat)
    requires OwnerBefore(s, k) && (s.links[k].pc.Comparing? || s.links[k].pc.TakingRtt? || s.links[k].pc.AddingRtt?)
    ensures OwnerAfter(s, OnReceiveStep(s, k), k)
  {
    var cl := s.clients[s.links[k].client];
    TickDifference(cl.sentAt, s.now);
    hide Tick, Wrap32, Wrap64, Put, SendTo, Target;
  }

  lemma OwnerCounts(s: State, k: nat)
    requires OwnerBefore(s, k)
    requires s.links[k].pc.CountingError? || s.links[k].pc.CountingRtt? || s.links[k].pc.FreeingPacket?
      || s.links[k].pc.CountingRecv?
    ensures OwnerAfter(s, OnReceiveStep(s, k), k)
  {
    hide Tick, Wrap32, Wrap64, Put, SendTo, Target;
  }

  lemma OwnerRecords(s: State, k: nat)
    requires OwnerBefore(s, k) && (s.links[k].pc.TakingTick? || s.links[k].pc.WritingTick?)
    ensures OwnerAfter(s, OnReceiveStep(s, k), k)
  {
    hide Tick, Wrap32, Wrap64, Put, SendTo, Target;
  }

  lemma OwnerSends(s: State, k: nat)
    requires OwnerBefore(s, k) && s.links[k].pc.Sending?
    ensures OwnerAfter(s, OnReceiveStep(s, k), k)
  {
    hide Tick, Wrap32, Wrap64;
  }

  /** The owner's connection after one statement of OnReceive. */
  lemma OwnerAfterReceive(s: State, k: nat)
    requires OwnerBefore(s, k) && InReceive(s.links[k].pc)
    ensures OwnerAfter(s, OnReceiveStep(s, k), k) && !Opening(OnReceiveStep(s, k).links[k].pc)
    ensures var cl := OnReceiveStep(s, k).clients[s.links[k].client];
      cl.rttTotal <= s.now - cl.start && cl.start <= s.now
  {
    StaysInReceive(s, k);
    hide OwnerBefore, OnReceiveStep;
    var pc := s.links[k].pc;
    if pc.Sending? {
      OwnerSends(s, k);
    } else if pc.TakingTick? || pc.WritingTick? {
      OwnerRecords(s, k);
    } else if pc.Comparing? || pc.TakingRtt? || pc.AddingRtt? {
      OwnerClassifies(s, k);
    } else {
      OwnerCounts(s, k);
    }
    OwnerRtt(s.now, OnReceiveStep(s, k).clients[s.links[k].client], s.links[k].client, OnReceiveStep(s, k).links,
             OnReceiveStep(s, k).links[k]);
  }

  lemma StaysInReceive(s: State, k: nat)
    requires k < |s.links| && InReceive(s.links[k].pc) && s.links[k].client < |s.clients|
    ensures var s' := OnReceiveStep(s, k);
      |s'.links| == |s.links| && !Opening(s'.links[k].pc) && !Disconnecting(s'.links[k].pc)
  {
    hide Tick, Wrap32, Wrap64, Target;
  }

  lemma OwnerRtt(now: nat, cl: Client, c: nat, links: seq<Link>, link: Link)
    requires OwnerOk(now, cl, c, links, link)
    ensures cl.rttTotal <= now - cl.start && cl.start <= now
  {
  }

  lemma ReceiveKeeps(s: State, k: nat)
    requires InvFor(s, k) && InReceive(s.links[k].pc)
    ensures InvAfter(s, OnReceiveStep(s, k), k)
  {
    hide ClientInv, OwnerOk, OnReceiveStep;
    var c := s.links[k].client;
    WorkerIsOwner(s.now, s.clients[c], c, s.links, k);
    OwnerAfterReceive(s, k);
    var s' := OnReceiveStep(s, k);
    NotOpening(s.links[k].pc);
    OwnerMoves(s.now, s.clients[c], s'.clients[c], c, s.links, s'.links[k]);
  }

  lemma NotOpening(pc: Pc)
    requires InReceive(pc) || pc.Receiving? || Disconnecting(pc)
    ensures !Opening(pc) && !Retired(pc)
  {
  }

  lemma OwnerLoses(s: State, k: nat, ok: bool)
    requires OwnerBefore(s, k) && Enabled(s, Work(k, ok)) && Disconnecting(s.links[k].pc)
      && !(s.links[k].pc.Connecting? && ok)
    ensures OwnerAfter(s, OnDisconnectStep(s, k, ok), k)
    ensures var cl := OnDisconnectStep(s, k, ok).clients[s.links[k].client];
      cl.start == s.clients[s.links[k].client].start && cl.rttTotal == s.clients[s.links[k].client].rttTotal
  {
    hide Tick, Wrap32, Wrap64, Put, SendTo, Target, TokenOk;
  }

  lemma OwnerOpens(s: State, k: nat, ok: bool)
    requires OwnerBefore(s, k) && Enabled(s, Work(k, ok)) && Opening(s.links[k].pc) && !s.links[k].pc.SendingFirst?
    ensures OwnerAfter(s, OnDisconnectStep(s, k, ok), k) && Opening(OnDisconnectStep(s, k, ok).links[k].pc)
    ensures var cl, cl' := s.clients[s.links[k].client], OnDisconnectStep(s, k, ok).clients[s.links[k].client];
      cl'.start == cl.start && cl'.rttTotal == cl.rttTotal && cl'.sock == cl.sock
  {
    hide Tick, Wrap32, Wrap64, Put, SendTo, Target, TokenOk;
  }

  /** The owner's connection after one statement of OnDisconnect, up to the first send. */
  lemma OwnerAfterDisconnect(s: State, k: nat, ok: bool)
    requires OwnerBefore(s, k) && Enabled(s, Work(k, ok)) && (Disconnecting(s.links[k].pc) || Opening(s.links[k].pc))
    requires !s.links[k].pc.SendingFirst? && !(s.links[k].pc.Connecting? && ok)
    ensures
      var c := s.links[k].client;
      var s' := OnDisconnectStep(s, k, ok);
      && OwnerAfter(s, s', k)
      && (Opening(s.links[k].pc) ==> Opening(s'.links[k].pc) && s'.clients[c].sock == s.clients[c].sock)
      && s'.clients[c].start == s.clients[c].start && s'.clients[c].rttTotal == s.clients[c].rttTotal
  {
    hide OwnerOk, OnDisconnectStep;
    if Opening(s.links[k].pc) {
      OwnerOpens(s, k, ok);
    } else {
      OwnerLoses(s, k, ok);
    }
  }

  lemma ClientBounds(now: nat, cl: Client, c: nat, links: seq<Link>)
    requires ClientInv(now, cl, c, links)
    ensures cl.rttTotal <= now - cl.start && cl.start <= now && -1 <= cl.owner < |links|
  {
  }

  lemma DisconnectKeeps(s: State, k: nat, ok: bool)
    requires InvFor(s, k) && Enabled(s, Work(k, ok)) && (Disconnecting(s.links[k].pc) || Opening(s.links[k].pc))
    requires !s.links[k].pc.SendingFirst? && !(s.links[k].pc.Connecting? && ok)
    ensures InvAfter(s, OnDisconnectStep(s, k, ok), k)
  {
    hide ClientInv, OwnerOk, OnDisconnectStep;
    var c := s.links[k].client;
    WorkerIsOwner(s.now, s.clients[c], c, s.links, k);
    ClientBounds(s.now, s.clients[c], c, s.links);
    OwnerAfterDisconnect(s, k, ok);
    var s' := OnDisconnectStep(s, k, ok);
    OwnerMoves(s.now, s.clients[c], s'.clients[c], c, s.links, s'.links[k]);
  }

  lemma ConnectKeeps(s: State, k: nat)
    requires InvFor(s, k) && Enabled(s, Work(k, true)) && s.links[k].pc.Connecting?
    ensures InvAfter(s, OnDisconnectStep(s, k, true), k)
  {
    hide ClientInv;
    var c := s.links[k].client;
    WorkerIsOwner(s.now, s.clients[c], c, s.links, k);
    Connects(s.now, s.clients[c], c, s.links);
    hide OwnerOk;
  }

  lemma FirstSendKeeps(s: State, k: nat, ok: bool)
    requires InvFor(s, k) && Enabled(s, Work(k, ok)) && s.links[k].pc.SendingFirst?
    ensures InvAfter(s, OnDisconnectStep(s, k, ok), k)
  {
    hide ClientInv, OwnerOk;
    var c := s.links[k].client;
    WorkerIsOwner(s.now, s.clients[c], c, s.links, k);
    FirstSend(s.now, s.clients[c], c, s.links);
    var s' := OnDisconnectStep(s, k, ok);
    var m := s.clients[c].sock;
    FirstSendSameClient(s, k);
  }

  lemma FirstSendSameClient(s: State, k: nat)
    requires InvFor(s, k) && s.links[k].pc.SendingFirst?
    ensures
      var c := s.links[k].client;
      c < |s.clients| && 0 <= s.clients[c].sock < |s.links| && s.links[s.clients[c].sock].client == c
  {
    WorkerIsOwner(s.now, s.clients[s.links[k].client], s.links[k].client, s.links, k);
  }

  lemma RetiredKeeps(s: State, k: nat, ok: bool)
    requires InvFor(s, k) && Enabled(s, Work(k, ok)) && Retired(s.links[k].pc)
    ensures InvAfter(s, OnDisconnectStep(s, k, ok), k)
  {
    var c := s.links[k].client;
    hide ClientInv;
    var s' := OnDisconnectStep(s, k, ok);
    RetiredIsOther(s.now, s.clients[c], c, s.links, k);
    OtherMoves(s.now, s.clients[c], c, s.links, k, s'.links[k]);
  }

  lemma RetiredIsOther(now: nat, cl: Client, c: nat, links: seq<Link>, k: nat)
    requires ClientInv(now, cl, c, links) && k < |links| && links[k].client == c && Retired(links[k].pc)
    ensures cl.owner != k
  {
  }

  lemma WorkKeeps(s: State, k: nat, ok: bool)
    requires InvFor(s, k) && Enabled(s, Work(k, ok))
    ensures InvAfter(s, Step(s, k, ok), k)
  {
    hide OnReceiveStep, OnDisconnectStep;
    var pc := s.links[k].pc;
    if InReceive(pc) {
      ReceiveKeeps(s, k);
    } else if Retired(pc) {
      RetiredKeeps(s, k, ok);
    } else if pc.SendingFirst? {
      FirstSendKeeps(s, k, ok);
    } else if pc.Connecting? && ok {
      ConnectKeeps(s, k);
    } else {
      DisconnectKeeps(s, k, ok);
    }
  }

  /** A change of one connection made by the network, the server or the thread's own recv. */
  lemma TransportKeeps(s: State, a: Action)
    requires Enabled(s, a) && (a.Receive? || a.ServerReceive? || a.ServerSend? || a.Cut?)
    requires InvFor(s, a.k)
    ensures InvAfter(s, Apply(s, a), a.k)
  {
    hide ClientInv, TokenOk, RttOk, OwnerOk, Read;
    var c := s.links[a.k].client;
    TransportLink(s, a);
    hide Apply;
    if s.clients[c].owner == a.k {
      OwnerTransports(s, a);
    } else {
      OtherTransports(s, a);
    }
  }

  lemma TransportLink(s: State, a: Action)
    requires Enabled(s, a) && (a.Receive? || a.ServerReceive? || a.ServerSend? || a.Cut?)
    ensures
      var s' := Apply(s, a);
      && s'.links == s.links[a.k := s'.links[a.k]] && s'.clients == s.clients && s'.now == s.now
      && |s'.links| == |s.links| && s'.links[a.k].client == s.links[a.k].client
  {
    hide Read;
  }

  lemma OtherTransports(s: State, a: Action)
    requires Enabled(s, a) && (a.Receive? || a.ServerReceive? || a.ServerSend? || a.Cut?)
    requires
      var c := s.links[a.k].client;
      c < |s.clients| && ClientInv(s.now, s.clients[c], c, s.links) && s.clients[c].owner != a.k
    ensures
      var c := s.links[a.k].client;
      ClientInv(s.now, s.clients[c], c, Apply(s, a).links)
  {
    var c := s.links[a.k].client;
    OtherIsRetiredOrFresh(s.now, s.clients[c], c, s.links, a.k);
    hide ClientInv;
    OtherMoves(s.now, s.clients[c], c, s.links, a.k, Apply(s, a).links[a.k]);
  }

  lemma OtherIsRetiredOrFresh(now: nat, cl: Client, c: nat, links: seq<Link>, k: nat)
    requires ClientInv(now, cl, c, links) && k < |links| && links[k].client == c && cl.owner != k
    ensures cl.owner >= 0 && (Retired(links[k].pc) || Fresh(links[k]))
  {
    assert OtherOk(cl, links, k);
  }

  lemma OwnerTransports(s: State, a: Action)
    requires Enabled(s, a) && (a.Receive? || a.ServerReceive? || a.ServerSend? || a.Cut?)
    requires
      var c := s.links[a.k].client;
      c < |s.clients| && ClientInv(s.now, s.clients[c], c, s.links) && s.clients[c].owner == a.k
    ensures
      var c := s.links[a.k].client;
      ClientInv(s.now, s.clients[c], c, Apply(s, a).links)
  {
    var c := s.links[a.k].client;
    var cl := s.clients[c];
    var link, link' := s.links[a.k], Apply(s, a).links[a.k];
    assert OwnerOk(s.now, cl, c, s.links, link);
    ClientBounds(s.now, cl, c, s.links);
    TransportLink(s, a);
    hide ClientInv, Read;
    if link.pc.Receiving? || InReceive(link.pc) {
      TokenTransports(s, a);
    }
    TransportPc(s, a);
    hide Apply, TokenOk;
    OwnerLinkOk(s.now, cl, c, s.links, a.k, link');
    hide OwnerOk;
    OwnerMoves(s.now, cl, cl, c, s.links, link');
  }

  /** Only the thread's own recv moves it, and only into OnReceive. */
  lemma TransportPc(s: State, a: Action)
    requires Enabled(s, a) && (a.Receive? || a.ServerReceive? || a.ServerSend? || a.Cut?)
    ensures
      var pc, pc' := s.links[a.k].pc, Apply(s, a).links[a.k].pc;
      pc' == pc || (pc.Receiving? && pc'.Comparing?)
  {
    hide Read;
  }

  lemma OwnerLinkOk(now: nat, cl: Client, c: nat, links: seq<Link>, k: nat, link: Link)
    requires k < |links| && cl.owner == k && OwnerOk(now, cl, c, links, links[k]) && link.client == c
    requires link.pc == links[k].pc || (links[k].pc.Receiving? && link.pc.Comparing?)
    requires links[k].pc.Receiving? || InReceive(links[k].pc) ==> TokenOk(link)
    ensures OwnerOk(now, cl, c, links[k := link], link)
  {
    hide TokenOk, Tick;
  }

  /** The packet moves along, or is lost with the connection. */
  lemma TokenTransports(s: State, a: Action)
    requires Enabled(s, a) && (a.Receive? || a.ServerReceive? || a.ServerSend? || a.Cut?)
    requires TokenOk(s.links[a.k])
    ensures TokenOk(Apply(s, a).links[a.k])
  {
    hide Read;
  }

  lemma DropKeeps(s: State, a: Action)
    requires Patient(s, a) && a.Drop? && InvFor(s, a.k)
    ensures InvAfter(s, Apply(s, a), a.k)
  {
    hide Left, Incomplete, Kept;
    var c := s.links[a.k].client;
    DropIsOwner(s.now, s.clients[c], c, s.links, a.k);
    hide ClientInv;
    var s' := Apply(s, a);
    hide Apply;
    ClientBounds(s.now, s.clients[c], c, s.links);
    OwnerMoves(s.now, s.clients[c], s'.clients[c], c, s.links, s'.links[a.k]);
    hide OwnerOk;
  }

  /** A connection that may drop belongs to the owner: a fresh one is still being opened. */
  lemma DropIsOwner(now: nat, cl: Client, c: nat, links: seq<Link>, k: nat)
    requires ClientInv(now, cl, c, links) && k < |links| && links[k].client == c && links[k].pc.Receiving?
    requires forall j :: 0 <= j < |links| && links[j].client == c ==> !Opening(links[j].pc)
    ensures cl.owner == k && OwnerOk(now, cl, c, links, links[k])
  {
    assert cl.owner >= 0;
    assert cl.owner != k ==> OtherOk(cl, links, k);
  }

  // ---- What a thread's step changes ----

  /** Connections keep their clients and what they have swallowed. */
  predicate SameLinks(links: seq<Link>, links': seq<Link>) {
    && |links| <= |links'|
    && forall i :: 0 <= i < |links| ==> links'[i].client == links[i].client && links'[i].swallowed == links[i].swallowed
  }

  /** Beside its own connection and client, the thread of connection k changes at most the connection its
      client's mSocket refers to, or adds one. */
  ghost predicate Framed(s: State, s': State, k: nat)
    requires k < |s.links| && s.links[k].client < |s.clients|
  {
    var c := s.links[k].client;
    && s'.kept == s.kept && s'.now == s.now && |s'.clients| == |s.clients|
        && s'.clients == s.clients[c := s'.clients[c]]
    && SameLinks(s.links, s'.links)
    && (forall i :: 0 <= i < |s.links| && i != k && i != s.clients[c].sock ==> s'.links[i] == s.links[i])
    && (|s'.links| == |s.links|
        || (|s'.links| == |s.links| + 1 && s'.links[|s.links|] == Link(c, Receiving, true, [], Quiet, [], 0, 0)))
    && (s'.clients[c].sock == s.clients[c].sock || s'.clients[c].sock == -1
        || s'.clients[c].sock == |s'.links| - 1 == |s.links|)
  }

  lemma OnReceiveFrame(s: State, k: nat)
    requires k < |s.links| && InReceive(s.links[k].pc) && s.links[k].client < |s.clients|
    ensures Framed(s, OnReceiveStep(s, k), k)
  {
    if s.links[k].pc.Sending? {
      hide Wrap32, Wrap64, Tick;
    } else {
      hide Wrap32, Wrap64, Tick, SendTo, Target;
    }
  }

  lemma OnDisconnectFrame(s: State, k: nat, ok: bool)
    requires Enabled(s, Work(k, ok)) && !InReceive(s.links[k].pc)
    ensures Framed(s, OnDisconnectStep(s, k, ok), k)
  {
    hide OnDisconnectStep;
    var pc := s.links[k].pc;
    if pc.SendingFirst? {
      FirstSendFrame(s, k, ok);
    } else if pc.Connecting? {
      ConnectFrame(s, k, ok);
    } else {
      hide Framed;
      PcFrame(s, k, ok);
      hide Enabled;
      PcFramed(s, OnDisconnectStep(s, k, ok), k);
    }
  }

  /** The connection's thread goes on, and of its client mSocket stays. */
  predicate PcMoves(s: State, s': State, k: nat)
    requires k < |s.links| && s.links[k].client < |s.clients|
  {
    var c := s.links[k].client;
    && k < |s'.links| && s'.links == s.links[k := s.links[k].(pc := s'.links[k].pc)] && s'.kept == s.kept
        && s'.now == s.now
    && |s'.clients| == |s.clients| && s'.clients == s.clients[c := s'.clients[c]]
        && s'.clients[c].sock == s.clients[c].sock
  }

  lemma PcFrame(s: State, k: nat, ok: bool)
    requires Enabled(s, Work(k, ok)) && !InReceive(s.links[k].pc) && !s.links[k].pc.SendingFirst?
      && !s.links[k].pc.Connecting?
    ensures PcMoves(s, OnDisconnectStep(s, k, ok), k)
  {
    hide PcMoves, OnDisconnectStep, InReceive;
    var pc := s.links[k].pc;
    if pc.MarkingConnected? || pc.ReadingClock? || pc.StoringTick? {
      OpeningFrame(s, k, ok);
    } else {
      CountingFrame(s, k, ok);
    }
  }

  lemma OpeningFrame(s: State, k: nat, ok: bool)
    requires Enabled(s, Work(k, ok))
    requires s.links[k].pc.MarkingConnected? || s.links[k].pc.ReadingClock? || s.links[k].pc.StoringTick?
    ensures PcMoves(s, OnDisconnectStep(s, k, ok), k)
  {
    hide Wrap32, Wrap64, Tick, SendTo, Target;
  }

  lemma CountingFrame(s: State, k: nat, ok: bool)
    requires Enabled(s, Work(k, ok)) && !InReceive(s.links[k].pc) && !Opening(s.links[k].pc)
      && !s.links[k].pc.Connecting?
    ensures PcMoves(s, OnDisconnectStep(s, k, ok), k) && OnDisconnectStep(s, k, ok).clients == s.clients
  {
    hide Wrap32, Wrap64, Tick, SendTo, Target;
  }

  lemma PcFramed(s: State, s': State, k: nat)
    requires k < |s.links| && s.links[k].client < |s.clients| && PcMoves(s, s', k)
    ensures Framed(s, s', k)
  {
  }

  lemma ConnectFrame(s: State, k: nat, ok: bool)
    requires Enabled(s, Work(k, ok)) && s.links[k].pc.Connecting?
    ensures Framed(s, OnDisconnectStep(s, k, ok), k)
  {
    hide Wrap32, Wrap64, Tick, SendTo, Target;
  }

  lemma FirstSendFrame(s: State, k: nat, ok: bool)
    requires Enabled(s, Work(k, ok)) && s.links[k].pc.SendingFirst?
    ensures Framed(s, OnDisconnectStep(s, k, ok), k)
  {
    hide Wrap32, Wrap64, Tick;
  }

  /** The network and the server change one connection, and no client's mSocket. */
  lemma TransportFrame(s: State, a: Action)
    requires Enabled(s, a) && !a.Work?
    ensures
      var s' := Apply(s, a);
      && |s'.links| == |s.links| && |s'.clients| == |s.clients| && s'.now >= s.now
      && (forall i :: 0 <= i < |s.links| && i != Acted(s, a) ==> s'.links[i] == s.links[i])
      && (Acted(s, a) < |s.links| ==> s'.links[Acted(s, a)].client == s.links[Acted(s, a)].client)
      && (forall c :: 0 <= c < |s.clients| ==> s'.clients[c].sock == s.clients[c].sock)
      && (forall c :: 0 <= c < |s.clients| && !Acts(s, a, c) ==> s'.clients[c] == s.clients[c])
  {
    hide Wrap32, Read, Left, Incomplete;
  }

  lemma WorkFrame(s: State, k: nat, ok: bool)
    requires Enabled(s, Work(k, ok))
    ensures Framed(s, Step(s, k, ok), k)
  {
    hide Framed, OnReceiveStep, OnDisconnectStep;
    if InReceive(s.links[k].pc) {
      OnReceiveFrame(s, k);
    } else {
      OnDisconnectFrame(s, k, ok);
    }
  }

  /** Only receives and drops change it. */
  lemma KeptStays(s: State, a: Action)
    requires Enabled(s, a) && !a.Receive? && !(a.Drop? && a.cut > 0)
    ensures Apply(s, a).kept == s.kept
  {
    if a.Work? {
      hide OnReceiveStep, OnDisconnectStep;
      WorkFrame(s, a.k, a.ok);
    } else {
      hide Wrap32, Left;
    }
  }

  // ---- Steps elsewhere ----

  /** Nothing that concerns client d has changed. */
  ghost predicate Elsewhere(s: State, s': State, d: nat)
    requires d < |s.clients|
  {
    && |s'.clients| == |s.clients| && s'.clients[d] == s.clients[d] && s'.now >= s.now && |s'.links| >= |s.links|
    && (forall i :: 0 <= i < |s.links| ==> s'.links[i].client == s.links[i].client)
    && (forall i :: 0 <= i < |s.links| && s.links[i].client == d ==> s'.links[i] == s.links[i])
    && (forall i :: |s.links| <= i < |s'.links| ==> s'.links[i].client != d)
  }

  lemma StepElsewhere(s: State, a: Action, d: nat)
    requires WellFormed(s) && Enabled(s, a) && d < |s.clients| && !Acts(s, a, d)
    ensures Elsewhere(s, Apply(s, a), d)
  {
    hide Step;
    if a.Work? {
      WorkFrame(s, a.k, a.ok);
      FramedElsewhere(s, Step(s, a.k, a.ok), a.k, d);
      hide Elsewhere, Framed, WellFormed, Enabled;
    } else {
      hide Apply, Enabled, WellFormed;
      TransportFrame(s, a);
    }
  }

  lemma FramedElsewhere(s: State, s': State, k: nat, d: nat)
    requires WellFormed(s) && k < |s.links| && s.links[k].client < |s.clients| && Framed(s, s', k)
    requires d < |s.clients| && s.links[k].client != d
    ensures Elsewhere(s, s', d)
  {
    var c := s.links[k].client;
    assert SockOk(s.clients[c].sock, c, s.links);
  }

  lemma ElsewhereKeeps(s: State, s': State, d: nat)
    requires d < |s.clients| && ClientInv(s.now, s.clients[d], d, s.links) && Elsewhere(s, s', d)
    ensures ClientInv(s'.now, s'.clients[d], d, s'.links)
  {
    hide ClientInv;
    TimePasses(s.now, s'.now, s.clients[d], d, s.links);
    OthersKeep(s'.now, s.clients[d], d, s.links, s'.links);
  }

  // ---- All clients ----

  /** Connections keep their clients, and sockets stay with theirs. */
  lemma StaysWellFormed(s: State, a: Action)
    requires WellFormed(s) && Enabled(s, a)
    ensures WellFormed(Apply(s, a)) && |Apply(s, a).clients| == |s.clients|
  {
    hide Step;
    if a.Work? {
      assert s.links[a.k].client < |s.clients|;
      WorkFrame(s, a.k, a.ok);
      hide Framed, WellFormed, Enabled;
      FramedWellFormed(s, Step(s, a.k, a.ok), a.k);
    } else {
      hide Apply, Enabled;
      TransportFrame(s, a);
    }
  }

  lemma FramedWellFormed(s: State, s': State, k: nat)
    requires WellFormed(s) && k < |s.links| && s.links[k].client < |s.clients| && Framed(s, s', k)
    ensures WellFormed(s') && |s'.clients| == |s.clients|
  {
    forall c | 0 <= c < |s.clients|
      ensures SockOk(s'.clients[c].sock, c, s'.links)
    {
      assert SockOk(s.clients[c].sock, c, s.links);
    }
  }

  lemma ActorKeeps(s: State, a: Action)
    requires Patient(s, a) && InvFor(s, Acted(s, a))
    ensures InvAfter(s, Apply(s, a), Acted(s, a))
  {
    hide ClientInv, InvAfter, Step;
    match a
    case Work(k, ok) =>
      WorkKeeps(s, k, ok);
    case Drop(_, _, _) =>
      hide Apply;
      DropKeeps(s, a);
    case Receive(_, _) =>
      hide Apply;
      TransportKeeps(s, a);
    case ServerReceive(_) =>
      hide Apply;
      TransportKeeps(s, a);
    case ServerSend(_) =>
      hide Apply;
      TransportKeeps(s, a);
    case Cut(_) =>
      hide Apply;
      TransportKeeps(s, a);
    case _ =>
  }

  /** A patient step keeps what is said of any one client, whatever holds of the others. */
  lemma OwnCount(s: State, a: Action, c: nat)
    requires WellFormed(s) && Patient(s, a) && c < |s.clients| && ClientInv(s.now, s.clients[c], c, s.links)
    ensures
      var s' := Apply(s, a);
      c < |s'.clients| && ClientInv(s'.now, s'.clients[c], c, s'.links)
  {
    assert Enabled(s, a);
    hide WellFormed, Apply, ClientInv, Patient;
    StaysWellFormed(s, a);
    if Acts(s, a, c) {
      ActorKeeps(s, a);
    } else {
      StepElsewhere(s, a, c);
      ElsewhereKeeps(s, Apply(s, a), c);
    }
  }

  /** Every patient step keeps the count. */
  lemma CountStep(s: State, a: Action)
    requires CountInv(s) && Patient(s, a)
    ensures CountInv(Apply(s, a))
  {
    assert Enabled(s, a);
    hide WellFormed, ClientInv, Apply, Patient;
    StaysWellFormed(s, a);
    forall c | 0 <= c < |s.clients|
      ensures ClientInv(Apply(s, a).now, Apply(s, a).clients[c], c, Apply(s, a).links)
    {
      OwnCount(s, a, c);
    }
  }

  lemma CountOf(s: State, k: nat)
    requires CountInv(s) && k < |s.links|
    ensures s.links[k].client < |s.clients|
    ensures ClientInv(s.now, s.clients[s.links[k].client], s.links[k].client, s.links)
  {
    hide ClientInv;
  }

  lemma {:induction false} RunCount(states: seq<State>)
    requires PatientRun(states)
    ensures CountInv(states[|states| - 1])
    decreases |states|
  {
    hide CountInv, Apply;
    if |states| == 1 {
      StartCount(states[0]);
    } else {
      var k := |states| - 1;
      PatientPrefix(states);
      RunCount(states[..k]);
      assert PatientStep(states[k - 1], states[k]);
      var a :| Patient(states[k - 1], a) && states[k] == Apply(states[k - 1], a);
      CountStep(states[k - 1], a);
    }
  }

  lemma StartCount(s: State)
    requires IsStart(s)
    ensures CountInv(s)
  {
    hide ClientInv, Ticked;
  }

  lemma PatientPrefix(states: seq<State>)
    requires PatientRun(states) && |states| > 1
    ensures PatientRun(states[..|states| - 1])
  {
    var before := states[..|states| - 1];
    forall i | 0 < i < |before|
      ensures PatientStep(before[i - 1], before[i])
    {
      assert PatientStep(states[i - 1], states[i]);
    }
  }
}
