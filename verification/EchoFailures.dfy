/** Runs that count an echo error, one for each way a step can fail to be tame: a connection that drops
    before its first packet has been sent, and one that drops in the middle of a packet. */
module EchoFailures {
  import opened EchoModel
  import opened EchoReconnectRace
  import opened EchoProgram
  import opened EchoSolo
  import opened EchoLeftover
  import PacketCodec
  import Framing

  /** One client, whose first packet is on its way since time t. */
  function One(t: nat): State {
    State(t, [Client(Tick(t), 0, true, 0, t, t, 0, 0)], [Link(0, Receiving, true, [Tick(t)], Quiet, [], 0, 0)],
          map[], 0, 0, 0,
          Counters(0, 0, 0, 0, 0, 0, 0, 0, 0), Totals(0, 0, 0, 0, 0, 0, 0, 0, 0, 0, 0, 0, 0))
  }

  lemma OneIsStart(t: nat)
    ensures IsStart(One(t))
  {
    hide Tick;
  }

  /** A run with one step that need not be tame: step k, which is action a. */
  ghost predicate OneUntame(states: seq<State>, k: nat, a: Action) {
    && Run(states) && 0 < k < |states| && Enabled(states[k - 1], a) && states[k] == Apply(states[k - 1], a)
    && forall i {:trigger states[i]} :: 0 < i < |states| && i != k ==> TameStep(states[i - 1], states[i])
  }

  lemma Joined(o: State, s: State, a: Action, s': State) returns (states: seq<State>, k: nat)
    requires IsStart(o) && Leads(o, s) && Enabled(s, a) && Leads(Apply(s, a), s')
    ensures OneUntame(states, k, a) && states[0] == o && states[k - 1] == s && states[|states| - 1] == s'
  {
    hide IsStart, TameStep, AnyStep, Apply, Enabled;
    StepIsStep(s, a);
    var p: seq<State> :| Path(p) && p[0] == o && p[|p| - 1] == s;
    var q: seq<State> :| Path(q) && q[0] == Apply(s, a) && q[|q| - 1] == s';
    states, k := p + q, |p|;
    forall i | 0 < i < |states| && i != k
      ensures TameStep(states[i - 1], states[i])
    {
      assert i < k ==> TameStep(p[i - 1], p[i]);
      assert i > k ==> TameStep(q[i - k - 1], q[i - k]);
    }
    forall i | 0 < i < |states|
      ensures AnyStep(states[i - 1], states[i])
    {
      if i != k {
        TameStepIsStep(states[i - 1], states[i]);
      }
    }
  }

  lemma StepIsStep(s: State, a: Action)
    requires Enabled(s, a)
    ensures AnyStep(s, Apply(s, a))
  {
  }

  lemma TameStepIsStep(s: State, s': State)
    requires TameStep(s, s')
    ensures AnyStep(s, s')
  {
  }

  // ---- A drop before the first packet ----

  /** The client's connection drops, and its thread comes to Connect. */
  lemma DropsOnce() returns (s: State)
    ensures Leads(One(0), s) && |s.links| == 1 && |s.clients| == 1 && Kept(s, 0) == [] && s.t.errors == 0
    ensures s.links[0].client == 0 && s.links[0].pc.Connecting? && !s.clients[0].connected
  {
    hide Leads, Wrap32, Wrap64, Tick, Read, TickWire;
    var o := One(0);
    LeadsHere(o);
    var s1 := Apply(o, Drop(0, 0, 0));
    Then(o, o, Drop(0, 0, 0), s1);
    s := ComesThere(o, s1);
  }

  lemma ComesThere(o: State, s: State) returns (s': State)
    requires Leads(o, s) && |s.links| == 1 && |s.clients| == 1 && s.links[0].client == 0 && s.links[0].pc.Dropped?
    ensures Leads(o, s') && |s'.links| == 1 && s'.clients == s.clients && s'.kept == s.kept && s'.t.errors == s.t.errors
    ensures s'.links[0].client == 0 && s'.links[0].pc.Connecting?
  {
    hide Leads, Wrap32, Wrap64;
    var s1 := Apply(s, Work(0, true));
    Then(o, s, Work(0, true), s1);
    s' := Apply(s1, Work(0, true));
    Then(o, s1, Work(0, true), s');
  }

  /** It has connected, and is about to set mbIsConnected. */
  lemma DropsEarly() returns (s: State)
    ensures Leads(One(0), s) && Enabled(s, Drop(1, 0, 0)) && Kept(s, 0) == [] && s.t.errors == 0 && |s.links| == 2
      && |s.clients| == 1
    ensures s.links[0].client == 0 == s.links[1].client && s.links[0].pc.MarkingConnected? && s.links[1].pc.Receiving?
  {
    hide Leads, Wrap32, Wrap64, Tick, Read, TickWire;
    var s1 := DropsOnce();
    s := Apply(s1, Work(0, true));
    Then(One(0), s1, Work(0, true), s);
  }

  /** With one client, from a start: the client connects again, the new connection drops before its thread has
      marked it connected, and an echo error is counted. All other steps are tame. */
  lemma EarlyDropHappens() returns (states: seq<State>, k: nat)
    ensures OneUntame(states, k, Drop(1, 0, 0)) && |states[0].clients| == 1 && states[|states| - 1].t.errors == 1
  {
    hide Leads, IsStart, OneUntame;
    OneIsStart(0);
    var s := DropsEarly();
    assert !NoneOpening(s, 1) by {
      assert Opening(s.links[0].pc);
    }
    DropKeepsErrors(s, 1);
    var s' := EarlyDropCanErr(s, 1);
    states, k := Joined(One(0), s, Drop(1, 0, 0), s');
  }

  lemma DropKeepsErrors(s: State, k: nat)
    requires Enabled(s, Drop(k, 0, 0))
    ensures Apply(s, Drop(k, 0, 0)).t == s.t
  {
  }

  // ---- A drop in the middle of a packet ----

  /** Time enough to bring the clock to a given tick. */
  lemma WaitFor(now: nat, tick: nat) returns (ms: nat)
    requires tick < TWO_POW_32
    ensures Tick(now + ms) == tick
  {
    ms := (tick - now) % TWO_POW_32;
    var q := (tick - now) / TWO_POW_32;
    assert now + ms == tick - TWO_POW_32 * q;
  }

  /** In any state a drop, between the packets' sends, that leaves bytes which mislead the client can be
      followed by tame steps that count an echo error. */
  lemma MidPacketDropCanErr(s: State, k: nat, cut: nat, key: PacketCodec.byte) returns (s': State)
    requires Enabled(s, Drop(k, cut, key)) && cut > 0 && InRange(s.g) && Misleads(Left(s, k, cut, key))
    ensures Leads(Apply(s, Drop(k, cut, key)), s') && s'.t.errors == s.t.errors + 1
  {
    DropLeaves(s, k, cut, key);
    hide Leads, Misleads, Apply, Enabled, Left, SetKept, SetClient, SetLink;
    s' := ReconnectsMisled(Apply(s, Drop(k, cut, key)), k);
  }

  /** OnDisconnect's packet is sent, and its echo read wrong. */
  lemma ReconnectsMisled(s: State, k: nat) returns (s': State)
    requires Has(s, k) && s.links[k].pc.Dropped? && !Dummy(s, k).connected && InRange(s.g)
    requires Misleads(Kept(s, s.links[k].client))
    ensures Leads(s, s') && s'.t.errors == s.t.errors + 1
  {
    hide Leads, Read, Tick, InRange, SameErrors;
    var c, m := s.links[k].client, |s.links|;
    var tick: nat, key :| tick < TWO_POW_32 && Read(Kept(s, c), tick, key).Delivers?
      && Read(Kept(s, c), tick, key).tick != tick;
    hide Misleads;
    var ms := WaitFor(s.now, tick);
    var s1 := Reconnects(s, k, ms);
    hide Kept, Dummy, Has;
    s' := ReadsWrong(s, s1, c, m, tick, key);
  }

  lemma ReadsWrong(o: State, s: State, c: nat, m: nat, tick: nat, key: PacketCodec.byte) returns (s': State)
    requires Leads(o, s) && m < |s.links| && c < |s.clients| && s.clients[c].lastSendTick == tick
    requires s.links[m] == Link(c, Receiving, true, [tick], Quiet, [], 0, 0)
    requires Read(Kept(s, c), tick, key).Delivers? && Read(Kept(s, c), tick, key).tick != tick
    ensures Leads(o, s') && s'.t.errors == s.t.errors + 1
  {
    hide Leads, Read, Kept;
    var s1 := ArrivesAs(o, s, c, m, key);
    s' := Errs(o, s1, c, m);
  }

  lemma Reconnects(s: State, k: nat, ms: nat) returns (s': State)
    requires Has(s, k) && s.links[k].pc.Dropped? && !Dummy(s, k).connected && InRange(s.g)
    ensures Leads(s, s') && s'.t.errors == s.t.errors && Kept(s', s.links[k].client) == Kept(s, s.links[k].client)
    ensures |s'.links| == |s.links| + 1 && s.links[k].client < |s'.clients|
    ensures s'.links[|s.links|] == Link(s.links[k].client, Receiving, true, [Tick(s.now + ms)], Quiet, [], 0, 0)
    ensures s'.clients[s.links[k].client].lastSendTick == Tick(s.now + ms)
  {
    hide Leads, Tick, InRange, CountersAfterDisconnect;
    s' := OnDisconnectAlone(s, k, 0, ms);
  }

  lemma DropLeaves(s: State, k: nat, cut: nat, key: PacketCodec.byte)
    requires Enabled(s, Drop(k, cut, key)) && cut > 0
    ensures
      var s' := Apply(s, Drop(k, cut, key));
      && s'.t == s.t && s'.g == s.g && s'.links == s.links[k := s.links[k].(pc := Dropped, up := false)]
      && Has(s', k) && !Dummy(s', k).connected && Kept(s', s.links[k].client) == Left(s, k, cut, key)
  {
    hide Read, TickWire;
  }

  /** The echo of the client's packet is on its way back. */
  lemma EchoedBack(t: nat) returns (s: State)
    ensures Leads(One(t), s) && s.links == [Link(0, Receiving, true, [], Quiet, [Tick(t)], 0, 0)]
    ensures |s.clients| == 1 && s.kept == map[] && s.g == One(t).g && s.t.errors == 0
  {
    hide Leads, Tick, Read, TickWire, Opening;
    var o := One(t);
    assert [Tick(t)][1..] == [] && [] + [Tick(t)] == [Tick(t)];
    LeadsHere(o);
    var s1 := Apply(o, ServerReceive(0));
    Then(o, o, ServerReceive(0), s1);
    s := Apply(s1, ServerSend(0));
    Then(o, s1, ServerSend(0), s);
  }

  lemma ShortIsIncomplete(tick: nat, key: PacketCodec.byte, cut: nat)
    requires cut < TICK_PACKET
    ensures Incomplete(TickWire(tick, key)[..cut])
  {
    var bytes := TickWire(tick, key)[..cut];
    WireBegins(tick, key);
    hide TickWire, PacketCodec.Unwire, PacketCodec.Value2;
    Framing.FirstCases(bytes, 0xFFFF);
    if cut >= PacketCodec.HEADER_SIZE {
      LengthFour(bytes);
    }
  }

  lemma LeavesShort(s: State, tick: nat, cut: nat, key: PacketCodec.byte)
    requires s.links == [Link(0, Receiving, true, [], Quiet, [tick], 0, 0)] && |s.clients| == 1 && s.kept == map[]
    requires 3 <= cut <= 5
    ensures Enabled(s, Drop(0, cut, key)) && Misleads(Left(s, 0, cut, key)) && NoneOpening(s, 0)
  {
    hide TickWire, Misleads, Incomplete, Read;
    ShortIsIncomplete(tick, key, cut);
    ShortMisleads(tick, key, cut);
    var wire := TickWire(tick, key);
    assert [] + wire[..cut] == wire[..cut];
  }

  /** With one client, from a start at any time: its connection drops when three to five bytes of an echo have
      come in under any key, no thread being between Connect and its first send, and an echo error is counted.
      All other steps are tame. */
  lemma MidPacketDropHappens(t: nat, cut: nat, key: PacketCodec.byte) returns (states: seq<State>, k: nat)
    requires 3 <= cut <= 5
    ensures OneUntame(states, k, Drop(0, cut, key)) && NoneOpening(states[k - 1], 0) && states[k - 1].kept == map[]
    ensures |states[0].clients| == 1 && states[|states| - 1].t.errors == 1
  {
    OneIsStart(t);
    var s := EchoedBack(t);
    LeavesShort(s, Tick(t), cut, key);
    hide Leads, IsStart, OneUntame, Misleads, Apply, Enabled, Left, Opening, Tick;
    var s' := MidPacketDropCanErr(s, 0, cut, key);
    states, k := Joined(One(t), s, Drop(0, cut, key), s');
  }
}
