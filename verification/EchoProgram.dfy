/** The echo test's classes as a program: EchoDummy with the part of NetClient it sends through, and
    EchoServer. Each handler runs alone here and is shown to do what the steps of EchoModel do when
    nothing comes between them. */
module EchoProgram {
  import opened EchoModel
  import opened PacketCodec

  // ---- What the handlers do to the counters ----

  /** OnReceive of a packet with the given tick, with the clock read at two times. */
  function CountersAfterReceive(g: Counters, lastSendTick: nat, tick: nat, at: nat): Counters {
    var h := g.(recv := Wrap32(g.recv + 1), send := Wrap32(g.send + 1));
    if tick != lastSendTick then h.(error := Wrap64(g.error + 1))
    else h.(rttSum := Wrap64(g.rttSum + Wrap32(Tick(at) - lastSendTick)), rttCount := Wrap64(g.rttCount + 1))
  }

  /** OnDisconnect with the given number of failed attempts to connect. */
  function CountersAfterDisconnect(g: Counters, fails: nat): Counters {
    g.(down := Wrap64(g.down + 1), connectFail := Wrap64(g.connectFail + fails),
      connectTotal := Wrap64(g.connectTotal + 1))
  }

  /** The counters' widths. */
  predicate InRange(g: Counters) {
    && g.total < TWO_POW_32 && g.send < TWO_POW_32 && g.recv < TWO_POW_32
    && g.connectTotal < TWO_POW_64 && g.connectFail < TWO_POW_64 && g.down < TWO_POW_64
    && g.error < TWO_POW_64 && g.rttSum < TWO_POW_64 && g.rttCount < TWO_POW_64
  }

  /** The number of answers before the first positive one, or of all answers if there is none. */
  function Failures(answers: seq<bool>): (n: nat)
    ensures n <= |answers| && (n < |answers| ==> answers[n]) && forall i :: 0 <= i < n ==> !answers[i]
  {
    if answers == [] || answers[0] then 0 else 1 + Failures(answers[1..])
  }

  lemma WrapAdd(x: int, n: nat)
    ensures Wrap64(Wrap64(x + n) + 1) == Wrap64(x + n + 1)
    ensures 0 <= x < TWO_POW_64 ==> Wrap64(x) == x
  {
  }

  lemma DownAndUp(total: nat)
    requires total < TWO_POW_32
    ensures Wrap32(Wrap32(total - 1) + 1) == total
  {
  }

  // ---- The classes ----

  /** The counters of GlobalVariables.cpp. */
  class Globals {
    var total: nat
    var connectTotal: nat
    var connectFail: nat
    var down: nat
    var error: nat
    var rttSum: nat
    var rttCount: nat
    var send: nat
    var recv: nat

    ghost function Values(): Counters
      reads this
    {
      Counters(total, connectTotal, connectFail, down, error, rttSum, rttCount, send, recv)
    }

    constructor ()
      ensures Values() == Counters(0, 0, 0, 0, 0, 0, 0, 0, 0)
    {
      total, connectTotal, connectFail, down, error := 0, 0, 0, 0, 0;
      rttSum, rttCount, send, recv := 0, 0, 0, 0;
    }
  }

  /** The bytes a send of the packet puts on the wire: a packet is encoded once, however often it is
      sent. */
  ghost function Outgoing(packet: Serializer, key: byte): seq<byte>
    requires packet.Valid()
    reads packet, packet.buffer
  {
    if packet.sendPrepared then packet.Full() else Wire(packet.Payload(), key)
  }

  class EchoDummy {
    const g: Globals
    var lastSendTick: nat           // mLastSendTick
    var lastRtt: nat                // mLastRTT
    var isConnected: bool           // mbIsConnected
    var sendErrorCode: nat          // mSendErrorCode
    var socket: nat                 // mSocket: how many sockets have been created
    var receivers: seq<nat>         // the sockets for which a receive thread has been started
    var sent: seq<seq<byte>>        // what send has taken on the present socket

    constructor (g: Globals)
      ensures this.g == g && !isConnected && sent == [] && lastSendTick == 0 && socket == 0 && receivers == []
        && sendErrorCode == 0
    {
      this.g := g;
      lastSendTick, lastRtt, isConnected, sendErrorCode, socket, receivers, sent := 0, 0, false, 0, 0, [], [];
    }

    /** NetClient::Connect; `reachable` is the network's answer. A failed attempt too leaves a new socket. */
    method Connect(reachable: bool) returns (ok: bool)
      modifies this`isConnected, this`socket, this`receivers, this`sent
      ensures ok == (!old(isConnected) && reachable)
      ensures isConnected == (old(isConnected) || reachable)
      ensures socket == if old(isConnected) then old(socket) else old(socket) + 1
      ensures receivers == if ok then old(receivers) + [socket] else old(receivers)
      ensures sent == if old(isConnected) then old(sent) else []
    {
      if isConnected {
        return false;
      }
      socket, sent := socket + 1, [];
      if !reachable {
        return false;
      }
      receivers := receivers + [socket];
      isConnected := true;
      ok := true;
    }

    /** NetClient::SendPacket; `key` is what rand gives for the header, and `error` what the network answers: 0,
        or the code of an error. An error is recorded, and the call succeeds all the same. */
    method SendPacket(packet: Serializer?, key: byte, error: nat) returns (ok: bool)
      requires packet != null ==> packet.Valid()
      modifies this`sent, this`sendErrorCode, if packet == null then {} else {packet as object, packet.buffer}
      ensures ok == (isConnected && packet != null)
      ensures packet != null ==>
        packet.Valid() && packet.refCount == old(packet.refCount) && packet.deserialized == old(packet.deserialized)
      ensures ok ==> packet.sendPrepared && packet.Full() == old(if packet == null then [] else Outgoing(packet, key))
      ensures !ok && packet != null ==>
        packet.sendPrepared == old(packet.sendPrepared) && packet.Full() == old(packet.Full())
      ensures sent == if ok && error == 0 then old(sent) + [old(if packet == null then [] else Outgoing(packet, key))]
        else old(sent)
      ensures sendErrorCode == if ok && error != 0 then error else old(sendErrorCode)
    {
      if !isConnected || packet == null {
        return false;
      }
      if !packet.sendPrepared {
        packet.PrepareSend(key);
      }
      var bytes := packet.GetFull();
      if error != 0 {
        sendErrorCode := error;
      } else {
        sent := sent + [bytes];
      }
      ok := true;
    }

    /** Sends a packet from the pool that holds just a tick, and gives up its reference. */
    method SendTick(tick: nat, key: byte, error: nat) returns (ghost echoPacket: Serializer)
      modifies this`sent, this`sendErrorCode
      ensures fresh(echoPacket) && echoPacket.refCount == 0
      ensures sent == if isConnected && error == 0 then old(sent) + [Wire(Bytes4(tick), key)] else old(sent)
      ensures sendErrorCode == if isConnected && error != 0 then error else old(sendErrorCode)
    {
      var packet := new Serializer();
      packet.Put32(tick);
      assert packet.Payload() == Bytes4(tick);
      var _ := SendPacket(packet, key, error);
      packet.Free();
      echoPacket := packet;
    }

    /** The clock is read for the RTT at true time `rttAt` and for the new tick at `sendAt`. Of the two packets
        handled, the one received and the one sent, no reference is kept. */
    method OnReceive(packet: Serializer, rttAt: nat, sendAt: nat, key: byte,
                     error: nat) returns (ghost echoPacket: Serializer)
      requires packet.Valid() && packet.deserialized + 4 <= packet.size && packet.refCount > 0
      modifies this`lastSendTick, this`lastRtt, this`sent, this`sendErrorCode, g, packet`deserialized, packet`refCount
      ensures packet.refCount == old(packet.refCount) - 1 && fresh(echoPacket) && echoPacket.refCount == 0
      ensures packet.deserialized == old(packet.deserialized) + 4
      ensures lastSendTick == Tick(sendAt)
      ensures
        var tick := old(Value4(packet.Payload()[packet.deserialized..packet.deserialized + 4]));
        && g.Values() == old(CountersAfterReceive(g.Values(), lastSendTick, tick, rttAt))
        && lastRtt == if tick == old(lastSendTick) then Wrap32(Tick(rttAt) - old(lastSendTick)) else old(lastRtt)
      ensures sent == if isConnected && error == 0 then old(sent) + [Wire(Bytes4(Tick(sendAt)), key)] else old(sent)
      ensures sendErrorCode == if isConnected && error != 0 then error else old(sendErrorCode)
    {
      hide Value4, Bytes4, Wire, Wrap32, Wrap64;
      var receiveTick := packet.Get32();
      if lastSendTick != receiveTick {
        g.error := Wrap64(g.error + 1);
      } else {
        lastRtt := Wrap32(Tick(rttAt) - lastSendTick);
        g.rttSum := Wrap64(g.rttSum + lastRtt);
        g.rttCount := Wrap64(g.rttCount + 1);
      }
      packet.Free();
      g.recv := Wrap32(g.recv + 1);
      lastSendTick := Tick(sendAt);
      echoPacket := SendTick(lastSendTick, key, error);
      g.send := Wrap32(g.send + 1);
    }

    /** OnDisconnect's loop, as far as the network's `answers` to the attempts to connect go. */
    method Reconnect(answers: seq<bool>) returns (connected: bool)
      requires !isConnected && g.connectFail < TWO_POW_64
      modifies this`isConnected, this`socket, this`receivers, this`sent, g`connectFail
      ensures connected == isConnected == (Failures(answers) < |answers|)
      ensures g.connectFail == Wrap64(old(g.connectFail) + Failures(answers))
      ensures socket == old(socket) + Failures(answers) + if connected then 1 else 0
      ensures receivers == if connected then old(receivers) + [socket] else old(receivers)
      ensures sent == if answers == [] then old(sent) else []
    {
      hide Wrap64;
      WrapAdd(g.connectFail, 0);
      var tries := 0;
      connected := false;
      while tries < |answers|
        invariant tries <= |answers| && !isConnected && !connected
        invariant Failures(answers) == tries + Failures(answers[tries..])
        invariant sent == (if tries == 0 then old(sent) else []) && socket == old(socket) + tries
          && receivers == old(receivers)
        invariant g.connectFail == Wrap64(old(g.connectFail) + tries)
      {
        connected := Connect(answers[tries]);
        if connected {
          return;
        }
        g.connectFail := Wrap64(g.connectFail + 1);
        WrapAdd(old(g.connectFail), tries);
        assert answers[tries..][1..] == answers[tries + 1..];
        tries := tries + 1;
      }
    }

    /** recvThread has cleared mbIsConnected; the clock is read at true time `at`. While the network has not
        answered an attempt positively the handler is still in its loop. */
    method OnDisconnect(answers: seq<bool>, at: nat, key: byte, error: nat) returns (done: bool)
      requires !isConnected && InRange(g.Values())
      modifies this`lastSendTick, this`isConnected, this`sendErrorCode, this`socket, this`receivers, this`sent, g
      ensures done == isConnected == (Failures(answers) < |answers|)
      ensures socket == old(socket) + Failures(answers) + if done then 1 else 0
      ensures receivers == if done then old(receivers) + [socket] else old(receivers)
      ensures sendErrorCode == if done && error != 0 then error else old(sendErrorCode)
      ensures done ==>
        && lastSendTick == Tick(at) && sent == (if error == 0 then [Wire(Bytes4(Tick(at)), key)] else [])
        && g.Values() == CountersAfterDisconnect(old(g.Values()), Failures(answers))
      ensures !done ==>
        && lastSendTick == old(lastSendTick) && sent == (if answers == [] then old(sent) else [])
        && g.Values() == old(g.Values()).(total := Wrap32(old(g.total) - 1), down := Wrap64(old(g.down) + 1),
                                          connectFail := Wrap64(old(g.connectFail) + |answers|))
    {
      hide Bytes4, Wire, Wrap64;
      g.total := Wrap32(g.total - 1);
      g.down := Wrap64(g.down + 1);
      done := Reconnect(answers);
      if !done {
        return;
      }
      var sendTick := Tick(at);
      lastSendTick := sendTick;
      ghost var _ := SendTick(sendTick, key, error);
      g.connectTotal := Wrap64(g.connectTotal + 1);
      g.total := Wrap32(g.total + 1);
      DownAndUp(old(g.total));
    }
  }

  /** A slot of the server's session list. `queued` are the packets enqueued since Init, whether posted to the
      network or not, as wire bytes. */
  class Session {
    var id: nat
    var ioCount: nat             // IoCount without its top bit
    var released: bool           // the top bit of IoCount
    var disconnected: bool
    var disconnectRegistered: bool
    var queued: seq<seq<byte>>

    constructor ()
      ensures released && ioCount == 0 && queued == []
    {
      id, ioCount, released, disconnected, disconnectRegistered, queued := 0, 0, true, false, false, [];
    }

    method DecrementIoCount()
      requires ioCount > 0
      modifies this`ioCount, this`released, this`disconnected
      ensures ioCount == old(ioCount) - 1
      ensures released == (old(released) || old(ioCount) == 1)
      ensures disconnected == (old(disconnected) || (old(ioCount) == 1 && !old(released)))
    {
      ioCount := ioCount - 1;
      if ioCount == 0 && !released {
        released := true;
        disconnected := true;
      }
    }
  }

  class EchoServer {
    const sessions: array<Session>

    constructor (sessions: array<Session>)
      ensures this.sessions == sessions
    {
      this.sessions := sessions;
    }

    /** The session takes packets: it is the one meant, not released, and no disconnect is under way. */
    predicate Takes(session: Session, sessionId: nat)
      reads session
    {
      session.id == sessionId && !session.released && !session.disconnected && !session.disconnectRegistered
    }

    /** NetServer::SendPacket: the packet is encoded, if it has not been, and queued with a reference of its own,
        exactly if the session takes it. The session's slot is in the upper half of the ID. */
    method SendPacket(sessionId: nat, packet: Serializer?, key: byte)
      requires packet != null ==> packet.Valid()
      modifies if packet == null then {} else {packet as object, packet.buffer},
               if sessionId / 0x1_0000_0000 < sessions.Length then {sessions[sessionId / 0x1_0000_0000]} else {}
      ensures packet != null ==>
        packet.Valid() && packet.deserialized == old(packet.deserialized) && packet.size == old(packet.size)
      ensures packet != null && sessionId / 0x1_0000_0000 < sessions.Length ==>
        var session := sessions[sessionId / 0x1_0000_0000];
        var takes := old(Takes(session, sessionId));
        && session.queued == (if takes then old(session.queued) + [old(Outgoing(packet, key))] else old(session.queued))
        && packet.refCount == old(packet.refCount) + (if takes then 1 else 0)
        && (takes ==> packet.sendPrepared && packet.Full() == old(Outgoing(packet, key)))
        && (!takes ==> packet.sendPrepared == old(packet.sendPrepared) && packet.Full() == old(packet.Full()))
        && session.id == old(session.id) && session.ioCount == old(session.ioCount)
        && session.disconnectRegistered == old(session.disconnectRegistered)
        && (old(session.ioCount) > 0 ==>
            session.released == old(session.released) && session.disconnected == old(session.disconnected))
        && (old(session.ioCount) == 0 ==>
            session.released && session.disconnected == (old(session.disconnected) || !old(session.released)))
      ensures packet == null && sessionId / 0x1_0000_0000 < sessions.Length ==>
        unchanged(sessions[sessionId / 0x1_0000_0000])
      ensures packet != null && sessionId / 0x1_0000_0000 >= sessions.Length ==> unchanged(packet, packet.buffer)
    {
      hide Wire;
      var sessionKey := sessionId / TWO_POW_32;
      if packet == null || sessionKey >= sessions.Length {
        return;
      }
      var session := sessions[sessionKey];
      session.ioCount := session.ioCount + 1;
      if session.released || session.disconnected || session.disconnectRegistered || session.id != sessionId {
        session.DecrementIoCount();
        return;
      }
      if !packet.sendPrepared {
        packet.PrepareSend(key);
      }
      packet.IncrementRefCount();
      var bytes := packet.GetFull();
      session.queued := session.queued + [bytes];
      session.DecrementIoCount();
    }

    /** The payload goes back to the session it came from, and nowhere else; the handler's own reference is given
        up, so that only the queue's is left. */
    method OnReceive(sessionId: nat, packet: Serializer, key: byte)
      requires packet.Valid() && packet.refCount > 0
      modifies packet, packet.buffer,
               if sessionId / 0x1_0000_0000 < sessions.Length then {sessions[sessionId / 0x1_0000_0000]} else {}
      ensures
        var takes := sessionId / 0x1_0000_0000 < sessions.Length
          && old(Takes(sessions[sessionId / 0x1_0000_0000], sessionId));
        packet.refCount == old(packet.refCount) - (if takes then 0 else 1)
      ensures forall k: nat :: k < sessions.Length && k * 0x1_0000_0000 <= sessionId < (k + 1) * 0x1_0000_0000 ==>
        && (old(Takes(sessions[k], sessionId)) ==>
              sessions[k].queued == old(sessions[k].queued) + [old(Outgoing(packet, key))])
        && (!old(Takes(sessions[k], sessionId)) ==> sessions[k].queued == old(sessions[k].queued))
        && sessions[k].id == old(sessions[k].id) && sessions[k].ioCount == old(sessions[k].ioCount)
      ensures forall k: nat :: k < sessions.Length && old(sessions[k].id) != sessionId ==>
        sessions[k].queued == old(sessions[k].queued)
    {
      SendPacket(sessionId, packet, key);
      packet.Free();
    }
  }
}
