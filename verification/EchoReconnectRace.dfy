/** Why runs must be tame: a connection that drops before its first packet has been sent starts a
    second OnDisconnect beside the first, both send on the newest socket, and an echo error can be
    counted. */
module EchoReconnectRace {
  import opened EchoModel
  import opened EchoLeftover
  import PacketCodec

  /** s' can be reached from s by tame steps. */
  ghost predicate Leads(s: State, s': State) {
    exists path: seq<State> :: Path(path) && path[0] == s && path[|path| - 1] == s'
  }

  ghost predicate Path(path: seq<State>) {
    path != [] && forall i {:trigger path[i]} :: 0 < i < |path| ==> TameStep(path[i - 1], path[i])
  }

  lemma LeadsHere(s: State)
    ensures Leads(s, s)
  {
    assert Path([s]);
  }

  /** One more step. */
  lemma Then(s: State, s1: State, a: Action, s2: State)
    requires Leads(s, s1) && Tame(s1, a) && s2 == Apply(s1, a)
    ensures Leads(s, s2)
  {
    hide Apply, Tame;
    var path: seq<State> :| Path(path) && path[0] == s && path[|path| - 1] == s1;
    var longer := path + [s2];
    assert TameStep(s1, s2);
    forall i | 0 < i < |longer|
      ensures TameStep(longer[i - 1], longer[i])
    {
      assert i < |path| ==> TameStep(path[i - 1], path[i]);
    }
    assert Path(longer);
  }

  /** What the later steps need to know: two different connections of client c. */
  predicate Pair(s: State, c: nat, j: nat, k: nat) {
    && j < |s.links| && k < |s.links| && j != k && c < |s.clients| && s.links[j].client == c && s.links[k].client == c
  }

  /** The second OnDisconnect comes to its Connect. */
  lemma ComesToConnect(o: State, s: State, c: nat, j: nat, k: nat) returns (s': State)
    requires Leads(o, s) && Pair(s, c, j, k) && s.links[k].pc.Dropped? && !s.clients[c].connected
    ensures Leads(o, s') && Pair(s', c, j, k) && s'.links[k].pc.Connecting? && !s'.clients[c].connected
    ensures s'.links[j] == s.links[j] && s'.t.errors == s.t.errors && s'.kept == s.kept
  {
    hide Leads, Wrap32, Wrap64;
    var s1 := Apply(s, Work(k, true));
    Then(o, s, Work(k, true), s1);
    s' := Apply(s1, Work(k, true));
    Then(o, s1, Work(k, true), s');
  }

  /** It connects: m is the new connection. */
  lemma ConnectsAgain(o: State, s: State, c: nat, j: nat, k: nat) returns (s': State, m: nat)
    requires Leads(o, s) && Pair(s, c, j, k) && s.links[k].pc.Connecting? && !s.clients[c].connected
    ensures Leads(o, s') && Pair(s', c, j, k) && Pair(s', c, m, k) && m != j
    ensures s'.links[k].pc.ReadingClock? && s'.clients[c].connected && s'.clients[c].sock == m
    ensures s'.links[m] == Link(c, Receiving, true, [], Quiet, [], 0, 0)
    ensures s'.links[j] == s.links[j] && s'.t.errors == s.t.errors && s'.kept == s.kept
  {
    hide Leads;
    m := |s.links|;
    var s1 := Apply(s, Work(k, true));
    Then(o, s, Work(k, true), s1);
    s' := Apply(s1, Work(k, true));
    Then(o, s1, Work(k, true), s');
  }

  /** Waiting, if need be, makes the clock differ from a given tick. */
  lemma Waits(o: State, s: State, tick: nat) returns (s': State)
    requires Leads(o, s)
    ensures Leads(o, s') && Tick(s'.now) != tick && s' == s.(now := s'.now)
  {
    hide Leads, Tick;
    var ms := if Tick(s.now) == tick then 1 else 0;
    NextTick(s.now);
    s' := Apply(s, Advance(ms));
    Then(o, s, Advance(ms), s');
  }

  lemma TickFits(t: nat)
    ensures Tick(t) < TWO_POW_32
  {
  }

  lemma NextTick(t: nat)
    ensures Tick(t + 1) != Tick(t)
  {
  }

  /** The second OnDisconnect's packet is on its way on connection m. */
  predicate Sent(s: State, c: nat, j: nat, m: nat, tick: nat) {
    && Pair(s, c, j, m) && s.clients[c].connected && s.clients[c].sock == m && s.clients[c].lastSendTick == tick
    && s.links[m] == Link(c, Receiving, true, [tick], Quiet, [], 0, 0) && tick < TWO_POW_32
  }

  /** It reads the clock, stores and sends a tick different from `other`. */
  lemma SendsFirst(o: State, s: State, c: nat, j: nat, k: nat, m: nat, other: nat) returns (s': State, tick: nat)
    requires Leads(o, s) && Pair(s, c, j, k) && Pair(s, c, m, k) && m != j
    requires s.links[k].pc.ReadingClock? && s.clients[c].connected && s.clients[c].sock == m
    requires s.links[m] == Link(c, Receiving, true, [], Quiet, [], 0, 0)
    ensures Leads(o, s') && Sent(s', c, j, m, tick) && tick != other
    ensures s'.links[j] == s.links[j] && s'.t.errors == s.t.errors && s'.kept == s.kept
  {
    hide Leads, Tick;
    var s1 := Waits(o, s, other);
    tick := Tick(s1.now);
    TickFits(s1.now);
    var s2 := Apply(s1, Work(k, true));
    Then(o, s1, Work(k, true), s2);
    var s3 := Apply(s2, Work(k, true));
    Then(o, s2, Work(k, true), s3);
    s' := Apply(s3, Work(k, true));
    Then(o, s3, Work(k, true), s');
  }

  /** The server echoes the oldest packet of connection m, and the client receives it. */
  lemma EchoArrives(o: State, s: State, c: nat, m: nat) returns (s': State)
    requires Leads(o, s) && m < |s.links| && c < |s.clients| && s.links[m].client == c
    requires s.links[m].pc.Receiving? && s.links[m].up && s.links[m].toServer != [] && s.links[m].server.Quiet?
      && s.links[m].toClient == []
    requires Kept(s, c) == [] && s.links[m].toServer[0] < TWO_POW_32
    ensures Leads(o, s') && |s'.links| == |s.links| && Kept(s', c) == []
    ensures s'.links[m] == s.links[m].(pc := Comparing(s.links[m].toServer[0]), toServer := s.links[m].toServer[1..])
    ensures s'.clients == s.clients && s'.t.errors == s.t.errors
  {
    ReadsTick(s.links[m].toServer[0], 0);
    hide Leads, Read;
    s' := ArrivesAs(o, s, c, m, 0);
  }

  /** What the client reads behind the bytes it has kept may be another tick. */
  lemma ArrivesAs(o: State, s: State, c: nat, m: nat, key: PacketCodec.byte) returns (s': State)
    requires Leads(o, s) && m < |s.links| && s.links[m].client == c
    requires s.links[m].pc.Receiving? && s.links[m].up && s.links[m].toServer != [] && s.links[m].server.Quiet?
      && s.links[m].toClient == []
    requires Read(Kept(s, c), s.links[m].toServer[0], key).Delivers?
    ensures Leads(o, s') && |s'.links| == |s.links| && s'.clients == s.clients && s'.t.errors == s.t.errors
    ensures
      var read := Read(Kept(s, c), s.links[m].toServer[0], key);
      && Kept(s', c) == read.rest
      && s'.links[m] == s.links[m].(pc := Comparing(read.tick), toServer := s.links[m].toServer[1..])
  {
    hide Leads, Read;
    var s1 := Apply(s, ServerReceive(m));
    Then(o, s, ServerReceive(m), s1);
    var s2 := Apply(s1, ServerSend(m));
    Then(o, s1, ServerSend(m), s2);
    s' := Apply(s2, Receive(m, key));
    Then(o, s2, Receive(m, key), s');
  }

  /** OnReceive counts an error if the tick in the packet is not the one recorded. */
  lemma Errs(o: State, s: State, c: nat, m: nat) returns (s': State)
    requires Leads(o, s) && m < |s.links| && c < |s.clients| && s.links[m].client == c
    requires s.links[m].pc.Comparing? && s.links[m].pc.tick != s.clients[c].lastSendTick
    ensures Leads(o, s') && s'.t.errors == s.t.errors + 1
  {
    hide Leads, Wrap64;
    var s1 := Apply(s, Work(m, true));
    Then(o, s, Work(m, true), s1);
    s' := Apply(s1, Work(m, true));
    Then(o, s1, Work(m, true), s');
  }

  /** A packet whose tick is no longer the recorded one is counted as an error. */
  lemma StaleEchoErrs(o: State, s: State, c: nat, m: nat) returns (s': State)
    requires Leads(o, s) && m < |s.links| && c < |s.clients| && s.links[m].client == c
    requires s.links[m].pc.Receiving? && s.links[m].up && s.links[m].toServer != [] && s.links[m].server.Quiet?
      && s.links[m].toClient == []
    requires s.links[m].toServer[0] != s.clients[c].lastSendTick && Kept(s, c) == []
      && s.links[m].toServer[0] < TWO_POW_32
    ensures Leads(o, s') && s'.t.errors == s.t.errors + 1
  {
    hide Leads;
    var s1 := EchoArrives(o, s, c, m);
    s' := Errs(o, s1, c, m);
  }

  /** The first OnDisconnect, wherever it is before its store, overwrites the recorded tick. */
  lemma Overwrites(o: State, s: State, c: nat, j: nat, m: nat, tick: nat) returns (s': State)
    requires Leads(o, s) && Sent(s, c, j, m, tick)
    requires s.links[j].pc.MarkingConnected? || s.links[j].pc.ReadingClock?
      || (s.links[j].pc.StoringTick? && s.links[j].pc.tick != tick)
    ensures Leads(o, s') && Pair(s', c, j, m) && s'.links[m] == s.links[m]
    ensures s'.t.errors == s.t.errors && s'.kept == s.kept
    ensures s'.clients[c].lastSendTick != tick
  {
    hide Leads, Tick;
    var s1 := s;
    if s1.links[j].pc.MarkingConnected? {
      s1 := Apply(s, Work(j, true));
      Then(o, s, Work(j, true), s1);
    }
    if s1.links[j].pc.ReadingClock? {
      s1 := ReadsLater(o, s1, c, j, m, tick);
    }
    s' := Apply(s1, Work(j, true));
    Then(o, s1, Work(j, true), s');
  }

  lemma ReadsLater(o: State, s: State, c: nat, j: nat, m: nat, tick: nat) returns (s': State)
    requires Leads(o, s) && Pair(s, c, j, m) && s.links[j].pc.ReadingClock?
    ensures Leads(o, s') && Pair(s', c, j, m) && s'.links[m] == s.links[m]
    ensures s'.t.errors == s.t.errors && s'.kept == s.kept
    ensures s'.links[j].pc.StoringTick? && s'.links[j].pc.tick != tick
  {
    hide Leads, Tick;
    var s1 := Waits(o, s, tick);
    s' := Apply(s1, Work(j, true));
    Then(o, s1, Work(j, true), s');
  }

  /** The first OnDisconnect's packet goes out on connection m too. */
  lemma SecondToken(o: State, s: State, c: nat, j: nat, m: nat, tick: nat) returns (s': State)
    requires Leads(o, s) && Sent(s, c, j, m, tick) && s.links[j].pc.SendingFirst?
    ensures Leads(o, s') && |s'.links| == |s.links| && c < |s'.clients| && s'.t.errors == s.t.errors
      && s'.kept == s.kept
    ensures s'.links[m] == Link(c, Receiving, true, [tick, s.links[j].pc.tick], Quiet, [], 0, 0)
    ensures s'.clients[c] == s.clients[c].(owner := m)
  {
    hide Leads;
    s' := Apply(s, Work(j, true));
    Then(o, s, Work(j, true), s');
  }

  /** OnReceive accepts its packet and comes to reading the clock for the next one. */
  lemma Accepts(o: State, s: State, c: nat, m: nat) returns (s': State)
    requires Leads(o, s) && m < |s.links| && c < |s.clients| && s.links[m].client == c
    requires s.links[m].pc == Comparing(s.clients[c].lastSendTick)
    ensures Leads(o, s') && |s'.links| == |s.links| && c < |s'.clients| && s'.t.errors == s.t.errors
      && s'.kept == s.kept
    ensures s'.links[m] == s.links[m].(pc := TakingTick)
    ensures s'.clients[c].connected == s.clients[c].connected && s'.clients[c].sock == s.clients[c].sock
  {
    hide Leads;
    var s1 := AcceptsRtt(o, s, c, m);
    s' := AcceptsRest(o, s1, c, m);
  }

  lemma AcceptsRest(o: State, s: State, c: nat, m: nat) returns (s': State)
    requires Leads(o, s) && m < |s.links| && c < |s.clients| && s.links[m].client == c && s.links[m].pc.CountingRtt?
    ensures Leads(o, s') && |s'.links| == |s.links| && s'.clients == s.clients && s'.t.errors == s.t.errors
      && s'.kept == s.kept
    ensures s'.links[m] == s.links[m].(pc := TakingTick)
  {
    hide Leads, Wrap64, Wrap32, Tick, SendTo, Target;
    var s1 := Apply(s, Work(m, true));
    Then(o, s, Work(m, true), s1);
    var s2 := Apply(s1, Work(m, true));
    Then(o, s1, Work(m, true), s2);
    s' := Apply(s2, Work(m, true));
    Then(o, s2, Work(m, true), s');
  }

  lemma AcceptsRtt(o: State, s: State, c: nat, m: nat) returns (s': State)
    requires Leads(o, s) && m < |s.links| && c < |s.clients| && s.links[m].client == c
    requires s.links[m].pc == Comparing(s.clients[c].lastSendTick)
    ensures Leads(o, s') && |s'.links| == |s.links| && c < |s'.clients| && s'.t.errors == s.t.errors
      && s'.kept == s.kept
    ensures s'.links[m] == s.links[m].(pc := CountingRtt)
    ensures s'.clients[c].connected == s.clients[c].connected && s'.clients[c].sock == s.clients[c].sock
  {
    hide Leads, Wrap64, Wrap32, Tick;
    var s1 := Apply(s, Work(m, true));
    Then(o, s, Work(m, true), s1);
    var s2 := Apply(s1, Work(m, true));
    Then(o, s1, Work(m, true), s2);
    s' := Apply(s2, Work(m, true));
    Then(o, s2, Work(m, true), s');
  }

  /** OnReceive records and sends a tick different from `other`. */
  lemma SendsNext(o: State, s: State, c: nat, m: nat, other: nat) returns (s': State)
    requires Leads(o, s) && m < |s.links| && c < |s.clients| && s.links[m].client == c
    requires s.links[m].pc.TakingTick? && s.links[m].up && s.clients[c].connected && s.clients[c].sock == m
    ensures Leads(o, s') && |s'.links| == |s.links| && c < |s'.clients| && s'.t.errors == s.t.errors
      && s'.kept == s.kept
    ensures s'.clients[c].lastSendTick != other
    ensures s'.links[m] == s.links[m].(pc := Receiving, toServer := s.links[m].toServer + [s'.clients[c].lastSendTick])
  {
    hide Leads, Tick;
    var s1 := Waits(o, s, other);
    var s2 := Apply(s1, Work(m, true));
    Then(o, s1, Work(m, true), s2);
    var s3 := Apply(s2, Work(m, true));
    Then(o, s2, Work(m, true), s3);
    s' := Apply(s3, Work(m, true));
    Then(o, s3, Work(m, true), s');
  }

  /** Two packets on one connection: the second to come back is stale. */
  lemma TwoTokensErr(o: State, s: State, c: nat, j: nat, m: nat, tick: nat) returns (s': State)
    requires Leads(o, s) && Sent(s, c, j, m, tick) && s.links[j].pc.SendingFirst?
    requires s.links[j].pc.tick < TWO_POW_32 && Kept(s, c) == []
    ensures Leads(o, s') && s'.t.errors == s.t.errors + 1
  {
    hide Leads;
    var other := s.links[j].pc.tick;
    var s1 := SecondToken(o, s, c, j, m, tick);
    var s2 := EchoArrives(o, s1, c, m);
    var s3 := Accepts(o, s2, c, m);
    var s4 := SendsNext(o, s3, c, m, other);
    s' := StaleEchoErrs(o, s4, c, m);
  }

  /** In any state with 32-bit ticks and nothing left in the receive buffer, a drop between packets that is not
      tame can be followed by tame steps that count an echo error. Together with EchoErrorsNeverCounted: errors
      are never counted if no drop falls between a Connect and its first send, and any one drop that does can
      lead to one. */
  lemma EarlyDropCanErr(s: State, k: nat) returns (s': State)
    requires Enabled(s, Drop(k, 0, 0)) && !NoneOpening(s, k) && Kept(s, s.links[k].client) == []
    requires forall j :: 0 <= j < |s.links| && s.links[j].pc.SendingFirst? ==> s.links[j].pc.tick < TWO_POW_32
    ensures Leads(Apply(s, Drop(k, 0, 0)), s') && s'.t.errors == s.t.errors + 1
  {
    var c := s.links[k].client;
    var j :| 0 <= j < |s.links| && s.links[j].client == c && Opening(s.links[j].pc);
    hide Leads;
    var o := Apply(s, Drop(k, 0, 0));
    LeadsHere(o);
    var s1 := ComesToConnect(o, o, c, j, k);
    var s2, m := ConnectsAgain(o, s1, c, j, k);
    var pc := s.links[j].pc;
    var other := if pc.StoringTick? || pc.SendingFirst? then pc.tick else 0;
    var s3, tick := SendsFirst(o, s2, c, j, k, m, other);
    if pc.SendingFirst? {
      s' := TwoTokensErr(o, s3, c, j, m, tick);
    } else {
      var s4 := Overwrites(o, s3, c, j, m, tick);
      s' := StaleEchoErrs(o, s4, c, m);
    }
  }
}
