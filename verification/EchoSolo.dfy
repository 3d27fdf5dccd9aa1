/** The handlers as EchoProgram states them are the steps of EchoModel with nothing in between. */
module EchoSolo {
  import opened EchoModel
  import opened EchoReconnectRace
  import opened EchoProgram

  /** Connection k has a client. */
  predicate Has(s: State, k: nat) { k < |s.links| && s.links[k].client < |s.clients| }

  function Dummy(s: State, k: nat): Client
    requires Has(s, k)
  {
    s.clients[s.links[k].client]
  }

  /** Of s, only the counters, the totals, connection k's thread and its client have changed. */
  predicate Alone(s: State, s': State, k: nat, pc: Pc) {
    && Has(s, k) && Has(s', k) && s'.links == s.links[k := s.links[k].(pc := pc)]
    && s'.clients == s.clients[s.links[k].client := Dummy(s', k)]
    && Dummy(s', k).connected == Dummy(s, k).connected && Dummy(s', k).sock == Dummy(s, k).sock
    && s'.counting == s.counting && s'.freeing == s.freeing
  }

  lemma Counted(o: State, s: State, k: nat) returns (s': State)
    requires Leads(o, s) && Has(s, k) && s.links[k].pc.Comparing?
    ensures Leads(o, s') && Alone(s, s', k, FreeingPacket) && s'.now == s.now
    ensures
      var c, tick := Dummy(s, k), s.links[k].pc.tick;
      && Dummy(s', k).lastSendTick == c.lastSendTick
      && Dummy(s', k).lastRtt == (if tick == c.lastSendTick then Wrap32(Tick(s.now) - c.lastSendTick) else c.lastRtt)
      && s'.g.(recv := 0, send := 0) == CountersAfterReceive(s.g, c.lastSendTick, tick, s.now).(recv := 0, send := 0)
      && s'.g.recv == s.g.recv && s'.g.send == s.g.send
  {
    hide Leads, Wrap32, Wrap64, Tick;
    var s1 := Apply(s, Work(k, true));
    Then(o, s, Work(k, true), s1);
    s' := Apply(s1, Work(k, true));
    Then(o, s1, Work(k, true), s');
    if s1.links[k].pc.TakingRtt? {
      s' := RttCounted(o, s', k);
    }
  }

  lemma RttCounted(o: State, s: State, k: nat) returns (s': State)
    requires Leads(o, s) && Has(s, k) && s.links[k].pc.AddingRtt?
    ensures Leads(o, s') && Alone(s, s', k, FreeingPacket) && s'.now == s.now
    ensures Dummy(s', k).lastSendTick == Dummy(s, k).lastSendTick && Dummy(s', k).lastRtt == Dummy(s, k).lastRtt
    ensures s'.g == s.g.(rttSum := Wrap64(s.g.rttSum + Dummy(s, k).lastRtt), rttCount := Wrap64(s.g.rttCount + 1))
  {
    hide Leads, Wrap32, Wrap64, Tick;
    var s1 := Apply(s, Work(k, true));
    Then(o, s, Work(k, true), s1);
    s' := Apply(s1, Work(k, true));
    Then(o, s1, Work(k, true), s');
  }

  lemma Answered(o: State, s: State, k: nat, ms: nat) returns (s': State)
    requires Leads(o, s) && Has(s, k) && s.links[k].pc.FreeingPacket?
    ensures Leads(o, s') && Has(s', k) && Has(s, k)
    ensures
      var tick := Tick(s.now + ms);
      && Dummy(s', k).lastSendTick == tick && Dummy(s', k).lastRtt == Dummy(s, k).lastRtt
      && s'.g == s.g.(recv := Wrap32(s.g.recv + 1), send := Wrap32(s.g.send + 1))
      && s'.links == SendTo(Goto(s, k, Receiving), Target(s, Dummy(s, k)), tick).links
  {
    hide Leads, Wrap32, Wrap64, Tick, Apply, SendTo, Target;
    var s1 := Received(o, s, k, ms);
    var s2 := Recorded(o, s1, k);
    s' := Sent(o, s2, k);
    SameTarget(s, s2, k, Tick(s.now + ms));
  }

  /** The packet freed and counted; some time passes. */
  lemma Received(o: State, s: State, k: nat, ms: nat) returns (s': State)
    requires Leads(o, s) && Has(s, k) && s.links[k].pc.FreeingPacket?
    ensures Leads(o, s') && Alone(s, s', k, TakingTick) && Dummy(s', k) == Dummy(s, k) && s'.now == s.now + ms
    ensures s'.g == s.g.(recv := Wrap32(s.g.recv + 1))
  {
    hide Leads, Wrap32, Wrap64, Tick;
    var s1 := Apply(s, Work(k, true));
    Then(o, s, Work(k, true), s1);
    var s2 := Apply(s1, Work(k, true));
    Then(o, s1, Work(k, true), s2);
    s' := Apply(s2, Advance(ms));
    Then(o, s2, Advance(ms), s');
  }

  lemma Recorded(o: State, s: State, k: nat) returns (s': State)
    requires Leads(o, s) && Has(s, k) && s.links[k].pc.TakingTick?
    ensures Leads(o, s') && Alone(s, s', k, Sending(Tick(s.now))) && s'.g == s.g
    ensures Dummy(s', k).lastSendTick == Tick(s.now) && Dummy(s', k).lastRtt == Dummy(s, k).lastRtt
  {
    hide Leads, Wrap32, Wrap64, Tick;
    var s1 := Apply(s, Work(k, true));
    Then(o, s, Work(k, true), s1);
    s' := Apply(s1, Work(k, true));
    Then(o, s1, Work(k, true), s');
  }

  /** What is sent does not depend on where the thread is. */
  lemma SameTarget(s: State, s': State, k: nat, tick: nat)
    requires Has(s, k) && Has(s', k) && |s'.links| == |s.links|
      && s'.links == s.links[k := s.links[k].(pc := s'.links[k].pc)]
    requires Dummy(s', k).connected == Dummy(s, k).connected && Dummy(s', k).sock == Dummy(s, k).sock
    ensures Target(s', Dummy(s', k)) == Target(s, Dummy(s, k))
    ensures SendTo(Goto(s', k, Receiving), Target(s', Dummy(s', k)), tick).links == SendTo(Goto(s, k, Receiving),
      Target(s, Dummy(s, k)), tick).links
  {
    assert Goto(s', k, Receiving).links == Goto(s, k, Receiving).links;
  }

  lemma Sent(o: State, s: State, k: nat) returns (s': State)
    requires Leads(o, s) && Has(s, k) && s.links[k].pc.Sending?
    ensures Leads(o, s') && Has(s', k)
    ensures s'.clients == s.clients && s'.links[k].client == s.links[k].client
    ensures s'.g == s.g.(send := Wrap32(s.g.send + 1))
    ensures s'.links == SendTo(Goto(s, k, Receiving), Target(s, Dummy(s, k)), s.links[k].pc.tick).links
  {
    hide Leads, Wrap32;
    var s1 := Apply(s, Work(k, true));
    Then(o, s, Work(k, true), s1);
    s' := Apply(s1, CountSend);
    Then(o, s1, CountSend, s');
  }

  /** OnReceive from the comparison on, alone: its counters, its client's fields and the packet it sends
      are what EchoProgram.EchoDummy.OnReceive states. */
  lemma OnReceiveAlone(s: State, k: nat, ms: nat, more: nat) returns (s': State)
    requires Has(s, k) && s.links[k].pc.Comparing?
    ensures Leads(s, s') && Has(s', k)
    ensures
      var c, tick, at := Dummy(s, k), s.links[k].pc.tick, s.now + ms;
      && s'.g == CountersAfterReceive(s.g, c.lastSendTick, tick, at)
      && Dummy(s', k).lastRtt == (if tick == c.lastSendTick then Wrap32(Tick(at) - c.lastSendTick) else c.lastRtt)
      && Dummy(s', k).lastSendTick == Tick(at + more)
      && s'.links == SendTo(Goto(s, k, Receiving), Target(s, c), Tick(at + more)).links
  {
    hide Leads, Wrap32, Wrap64, Tick;
    LeadsHere(s);
    var s1 := Apply(s, Advance(ms));
    Then(s, s, Advance(ms), s1);
    hide Apply;
    var s2 := Counted(s, s1, k);
    s' := Answered(s, s2, k, more);
    assert Goto(s2, k, Receiving).links == Goto(s, k, Receiving).links;
  }

  // ---- OnDisconnect ----

  predicate SameErrors(s: State, s': State) { s'.kept == s.kept && s'.t.errors == s.t.errors }

  /** A number of failed attempts. */
  lemma {:induction false} Failing(o: State, s: State, k: nat, fails: nat) returns (s': State)
    requires Leads(o, s) && Has(s, k) && s.links[k].pc.Connecting? && !Dummy(s, k).connected && InRange(s.g)
    ensures Leads(o, s') && Has(s', k) && s'.links == s.links && !Dummy(s', k).connected && s'.now == s.now
    ensures SameErrors(s, s') && s'.clients == s.clients[s.links[k].client := Dummy(s', k)]
    ensures s'.g == s.g.(connectFail := Wrap64(s.g.connectFail + fails))
    decreases fails
  {
    hide Leads, Apply, Wrap32, Wrap64;
    WrapAdd(s.g.connectFail, 0);
    s' := s;
    if fails > 0 {
      var s1 := Failing(o, s, k, fails - 1);
      s' := FailedOnce(o, s1, k);
      WrapAdd(s.g.connectFail, fails - 1);
    }
  }

  lemma FailedOnce(o: State, s: State, k: nat) returns (s': State)
    requires Leads(o, s) && Has(s, k) && s.links[k].pc.Connecting? && !Dummy(s, k).connected
    ensures Leads(o, s') && Has(s', k) && s'.links == s.links && !Dummy(s', k).connected && s'.now == s.now
    ensures SameErrors(s, s') && s'.clients == s.clients[s.links[k].client := Dummy(s', k)]
    ensures s'.g == s.g.(connectFail := Wrap64(s.g.connectFail + 1))
  {
    hide Leads, Wrap32, Wrap64;
    var s1 := Apply(s, Work(k, false));
    Then(o, s, Work(k, false), s1);
    s' := Apply(s1, Work(k, false));
    Then(o, s1, Work(k, false), s');
  }

  /** OnDisconnect alone, with any number of failed attempts: its counters, its client's tick and the
      first packet of the new connection are what EchoProgram.EchoDummy.OnDisconnect states. */
  lemma OnDisconnectAlone(s: State, k: nat, fails: nat, ms: nat) returns (s': State)
    requires Has(s, k) && s.links[k].pc.Dropped? && !Dummy(s, k).connected && InRange(s.g)
    ensures Leads(s, s') && Has(s', k) && SameErrors(s, s')
      && s'.clients == s.clients[s.links[k].client := Dummy(s', k)]
    ensures
      && s'.g == CountersAfterDisconnect(s.g, fails)
      && Dummy(s', k).lastSendTick == Tick(s.now + ms) && Dummy(s', k).connected && Dummy(s', k).sock == |s.links|
      && s'.links == s.links[k := s.links[k].(pc := Exited)]
           + [Link(s.links[k].client, Receiving, true, [Tick(s.now + ms)], Quiet, [], 0, 0)]
  {
    hide Leads, Tick;
    LeadsHere(s);
    DownAndUp(s.g.total);
    var s1 := Apply(s, Work(k, true));
    Then(s, s, Work(k, true), s1);
    var s2 := Apply(s1, Work(k, true));
    Then(s, s1, Work(k, true), s2);
    hide Apply;
    var s3 := Failing(s, s2, k, fails);
    var s4 := Opened(s, s3, k, ms);
    s' := Counting(s, s4, k);
  }

  lemma Opened(o: State, s: State, k: nat, ms: nat) returns (s': State)
    requires Leads(o, s) && Has(s, k) && s.links[k].pc.Connecting? && !Dummy(s, k).connected
    ensures Leads(o, s') && Has(s', k) && s'.g == s.g && SameErrors(s, s')
    ensures s'.clients == s.clients[s.links[k].client := Dummy(s', k)]
    ensures Dummy(s', k).lastSendTick == Tick(s.now + ms) && Dummy(s', k).connected && Dummy(s', k).sock == |s.links|
    ensures s'.links == s.links[k := s.links[k].(pc := FreeingFirst)]
           + [Link(s.links[k].client, Receiving, true, [Tick(s.now + ms)], Quiet, [], 0, 0)]
  {
    hide Leads, Tick, Apply;
    var s1 := Connected(o, s, k);
    s' := SentFirst(o, s1, k, ms);
    assert [] + [Tick(s.now + ms)] == [Tick(s.now + ms)];
  }

  lemma Connected(o: State, s: State, k: nat) returns (s': State)
    requires Leads(o, s) && Has(s, k) && s.links[k].pc.Connecting? && !Dummy(s, k).connected
    ensures Leads(o, s') && Has(s', k) && s'.g == s.g && s'.now == s.now && SameErrors(s, s')
    ensures s'.clients == s.clients[s.links[k].client := Dummy(s', k)]
    ensures Dummy(s', k).connected && Dummy(s', k).sock == |s.links|
    ensures s'.links == s.links[k := s.links[k].(pc := ReadingClock)] +
      [Link(s.links[k].client, Receiving, true, [], Quiet, [], 0, 0)]
  {
    hide Leads, Tick, Wrap32, Wrap64;
    var s1 := Apply(s, Work(k, true));
    Then(o, s, Work(k, true), s1);
    s' := Apply(s1, Work(k, true));
    Then(o, s1, Work(k, true), s');
  }

  /** The first send on a new connection m. */
  lemma SentFirst(o: State, s: State, k: nat, ms: nat) returns (s': State)
    requires Leads(o, s) && Has(s, k) && s.links[k].pc.ReadingClock?
    requires Dummy(s, k).connected && Dummy(s, k).sock == |s.links| - 1 != k && s.links[|s.links| - 1].up
    ensures Leads(o, s') && Has(s', k) && s'.g == s.g && SameErrors(s, s')
    ensures s'.clients == s.clients[s.links[k].client := Dummy(s', k)]
    ensures Dummy(s', k) == Dummy(s, k).(lastSendTick := Tick(s.now + ms), sentAt := s.now + ms, owner := |s.links| - 1)
    ensures
      var m := |s.links| - 1;
      s'.links == s.links[k := s.links[k].(pc := FreeingFirst)]
        [m := s.links[m].(toServer := s.links[m].toServer + [Tick(s.now + ms)])]
  {
    hide Leads, Tick, Apply, Wrap32, Wrap64, SendTo;
    var s1 := Stored(o, s, k, ms);
    s' := SentStored(o, s1, k);
  }

  lemma Stored(o: State, s: State, k: nat, ms: nat) returns (s': State)
    requires Leads(o, s) && Has(s, k) && s.links[k].pc.ReadingClock?
    ensures Leads(o, s') && s'.g == s.g && Alone(s, s', k, SendingFirst(Tick(s.now + ms))) && SameErrors(s, s')
    ensures Dummy(s', k) == Dummy(s, k).(lastSendTick := Tick(s.now + ms), sentAt := s.now + ms)
  {
    hide Leads, Tick, Wrap32, Wrap64;
    var s1 := Apply(s, Advance(ms));
    Then(o, s, Advance(ms), s1);
    var s2 := Apply(s1, Work(k, true));
    Then(o, s1, Work(k, true), s2);
    s' := Apply(s2, Work(k, true));
    Then(o, s2, Work(k, true), s');
  }

  lemma SentStored(o: State, s: State, k: nat) returns (s': State)
    requires Leads(o, s) && Has(s, k) && s.links[k].pc.SendingFirst?
    requires Dummy(s, k).connected && Dummy(s, k).sock == |s.links| - 1 != k && s.links[|s.links| - 1].up
    ensures Leads(o, s') && Has(s', k) && s'.g == s.g && SameErrors(s, s')
      && Dummy(s', k) == Dummy(s, k).(owner := |s.links| - 1)
    ensures s'.clients == s.clients[s.links[k].client := Dummy(s', k)]
    ensures
      var m := |s.links| - 1;
      s'.links == s.links[k := s.links[k].(pc := FreeingFirst)]
        [m := s.links[m].(toServer := s.links[m].toServer + [s.links[k].pc.tick])]
  {
    hide Leads, Wrap32, Wrap64;
    s' := Apply(s, Work(k, true));
    Then(o, s, Work(k, true), s');
  }

  lemma Counting(o: State, s: State, k: nat) returns (s': State)
    requires Leads(o, s) && Has(s, k) && s.links[k].pc.FreeingFirst?
    ensures Leads(o, s') && Has(s', k) && s'.clients == s.clients && SameErrors(s, s')
    ensures s'.links == s.links[k := s.links[k].(pc := Exited)]
    ensures s'.g == s.g.(connectTotal := Wrap64(s.g.connectTotal + 1), total := Wrap32(s.g.total + 1))
  {
    hide Leads, Wrap32, Wrap64;
    var s1 := Apply(s, Work(k, true));
    Then(o, s, Work(k, true), s1);
    s' := CountsBoth(o, s1, k);
  }

  lemma CountsBoth(o: State, s: State, k: nat) returns (s': State)
    requires Leads(o, s) && Has(s, k) && s.links[k].pc.CountingConnect?
    ensures Leads(o, s') && Has(s', k) && s'.clients == s.clients && SameErrors(s, s')
    ensures s'.links == s.links[k := s.links[k].(pc := Exited)]
    ensures s'.g == s.g.(connectTotal := Wrap64(s.g.connectTotal + 1), total := Wrap32(s.g.total + 1))
  {
    hide Leads, Wrap32, Wrap64;
    var s1 := Apply(s, Work(k, true));
    Then(o, s, Work(k, true), s1);
    s' := Apply(s1, Work(k, true));
    Then(o, s1, Work(k, true), s');
  }
}
