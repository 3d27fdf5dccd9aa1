/** Exactly which steps can lead to an echo error. */
module EchoDrops {
  import opened EchoModel
  import opened EchoLeftover
  import opened EchoToken
  import opened EchoTicks
  import opened EchoTheorems
  import opened EchoCounters
  import opened EchoReconnectRace
  import opened EchoProgram
  import opened EchoFailures

  // ---- A deaf client may do what it likes ----

  /** Client c is deaf, and none of its threads handles a packet. */
  ghost predicate Muted(s: State, c: nat) {
    && c in s.kept && Deafens(s.kept[c])
    && forall k :: 0 <= k < |s.links| && s.links[k].client == c ==> !InReceive(s.links[k].pc)
  }

  /** The token invariant, but for one client, which is mute. With c = -1 there is none. */
  ghost predicate InvBut(s: State, c: int) {
    && WellFormed(s) && (c >= 0 ==> Muted(s, c))
    && forall d :: 0 <= d < |s.clients| && d != c ==> OwnToken(s, d)
  }

  /** OnDisconnect brings no thread into OnReceive. */
  lemma OnDisconnectSilent(s: State, k: nat, ok: bool, i: nat)
    requires Enabled(s, Work(k, ok)) && !InReceive(s.links[k].pc) && i < |OnDisconnectStep(s, k, ok).links|
    ensures InReceive(OnDisconnectStep(s, k, ok).links[i].pc) ==> i < |s.links| && InReceive(s.links[i].pc)
  {
    hide OnDisconnectStep;
    if s.links[k].pc.SendingFirst? {
      FirstSendSilent(s, k, ok, i);
    } else if s.links[k].pc.Connecting? {
      ConnectSilent(s, k, ok, i);
    } else {
      PcFrame(s, k, ok);
      PcSilent(s, k, ok);
    }
  }

  lemma PcSilent(s: State, k: nat, ok: bool)
    requires Enabled(s, Work(k, ok)) && !InReceive(s.links[k].pc)
    requires !s.links[k].pc.SendingFirst? && !s.links[k].pc.Connecting?
    ensures k < |OnDisconnectStep(s, k, ok).links| && !InReceive(OnDisconnectStep(s, k, ok).links[k].pc)
  {
    hide InReceive, Wrap32, Wrap64, Tick, Target, SendTo, Read, Left, Incomplete;
    var pc := OnDisconnectStep(s, k, ok).links[k].pc;
    assert pc.CountingDown? || pc.Connecting? || pc.ReadingClock? || pc.StoringTick? || pc.SendingFirst? || Retired(pc);
    NotInReceive(pc);
  }

  lemma NotInReceive(pc: Pc)
    requires pc.CountingDown? || pc.Connecting? || pc.ReadingClock? || pc.StoringTick? || pc.SendingFirst?
      || Retired(pc)
    ensures !InReceive(pc)
  {
  }

  lemma ConnectSilent(s: State, k: nat, ok: bool, i: nat)
    requires Enabled(s, Work(k, ok)) && s.links[k].pc.Connecting? && i < |OnDisconnectStep(s, k, ok).links|
    ensures InReceive(OnDisconnectStep(s, k, ok).links[i].pc) ==> i < |s.links| && InReceive(s.links[i].pc)
  {
    hide Wrap32, Wrap64, Tick, Target, SendTo;
  }

  lemma FirstSendSilent(s: State, k: nat, ok: bool, i: nat)
    requires Enabled(s, Work(k, ok)) && s.links[k].pc.SendingFirst? && i < |OnDisconnectStep(s, k, ok).links|
    ensures InReceive(OnDisconnectStep(s, k, ok).links[i].pc) ==> i < |s.links| && InReceive(s.links[i].pc)
  {
    hide Wrap32, Wrap64, Tick, Target;
  }

  lemma TransportSilent(s: State, a: Action, i: nat)
    requires Enabled(s, a) && !a.Work? && i < |Apply(s, a).links|
    requires a.Receive? ==> s.links[a.k].client in s.kept && ReadRight(s, a)
    ensures InReceive(Apply(s, a).links[i].pc) ==> i < |s.links| && InReceive(s.links[i].pc)
  {
    hide Read, Deafens, Left, Incomplete;
  }

  lemma MutedReads(s: State, a: Action, c: nat)
    requires Muted(s, c) && Enabled(s, a) && Acts(s, a, c)
    ensures ReadRight(s, a)
  {
    hide Read, Deafens;
    if a.Receive? {
      DeafReads(s.kept[c], s.links[a.k].toClient[0], a.key);
    }
  }

  lemma MutedActs(s: State, a: Action, c: nat)
    requires Muted(s, c) && Tame(s, a) && Acts(s, a, c)
    ensures Muted(Apply(s, a), c)
  {
    assert Enabled(s, a);
    MutedReads(s, a, c);
    assert KeptInv(s, c);
    hide Deafens, Apply, Tame, KeptInv, ReadRight;
    KeptGoes(s, a, c);
    var s' := Apply(s, a);
    forall i | 0 <= i < |s'.links|
      ensures s'.links[i].client == c ==> !InReceive(s'.links[i].pc)
    {
      MutedThread(s, a, c, i);
    }
  }

  lemma MutedThread(s: State, a: Action, c: nat, i: nat)
    requires Muted(s, c) && Enabled(s, a) && Acts(s, a, c) && ReadRight(s, a) && i < |Apply(s, a).links|
    ensures Apply(s, a).links[i].client == c ==> !InReceive(Apply(s, a).links[i].pc)
  {
    SwallowedStays(s, a, i);
    hide Deafens, ReadRight, InReceive, OnDisconnectStep, OnReceiveStep;
    if a.Work? {
      OnDisconnectSilent(s, a.k, a.ok, i);
    } else {
      hide Apply;
      TransportSilent(s, a, i);
    }
  }

  lemma MutedElsewhere(s: State, a: Action, c: nat)
    requires WellFormed(s) && Muted(s, c) && c < |s.clients| && Enabled(s, a) && !Acts(s, a, c)
    ensures Muted(Apply(s, a), c)
  {
    assert KeptInv(s, c);
    StepElsewhere(s, a, c);
    KeptElsewhere(s, a, c);
    hide Apply, Enabled, WellFormed, Deafens, Acts, InReceive;
    KeptThere(s, a, c);
  }

  lemma KeptThere(s: State, a: Action, c: nat)
    requires Enabled(s, a) && !Acts(s, a, c) && c in s.kept
    ensures c in Apply(s, a).kept
  {
    if !a.Receive? && !a.Drop? {
      KeptStays(s, a);
      hide Apply;
    } else {
      hide Read, Left, Incomplete;
    }
  }

  lemma InvButStep(s: State, a: Action, c: int)
    requires InvBut(s, c) && c < |s.clients| && Tame(s, a)
    ensures InvBut(Apply(s, a), c) && |Apply(s, a).clients| == |s.clients|
  {
    assert Enabled(s, a);
    hide WellFormed, OwnToken, Muted, Apply, Tame, Acts;
    StaysWellFormed(s, a);
    if c >= 0 {
      if Acts(s, a, c) {
        MutedActs(s, a, c);
      } else {
        MutedElsewhere(s, a, c);
      }
    }
    forall d | 0 <= d < |s.clients| && d != c
      ensures OwnToken(Apply(s, a), d)
    {
      OwnStep(s, a, d);
    }
  }

  lemma NoneErrs(s: State, c: int, k: nat)
    requires InvBut(s, c) && k < |s.links|
    ensures !s.links[k].pc.CountingError?
  {
    hide ClientInv, KeptInv, Deafens;
    var d := s.links[k].client;
    if d != c && s.links[k].pc.CountingError? {
      assert OwnToken(s, d);
      WorkerIsOwner(s.now, s.clients[d], d, s.links, k);
    }
  }

  lemma {:induction false} NoErrorsAlong(path: seq<State>, c: int)
    requires Path(path) && InvBut(path[0], c) && c < |path[0].clients| && path[0].t.errors == 0
    ensures InvBut(path[|path| - 1], c) && c < |path[|path| - 1].clients| && path[|path| - 1].t.errors == 0
    decreases |path|
  {
    hide InvBut, Apply;
    if |path| > 1 {
      var k := |path| - 1;
      NoErrorsAlong(path[..k], c);
      assert TameStep(path[k - 1], path[k]);
      var a :| Tame(path[k - 1], a) && path[k] == Apply(path[k - 1], a);
      InvButStep(path[k - 1], a, c);
      if a.Work? {
        NoneErrs(path[k - 1], c, a.k);
      }
      ErrorsOnlyThere(path[k - 1], a);
    }
  }

  /** Tame steps can lead on to a counted error. */
  ghost predicate CanErr(s: State) { exists s' :: Leads(s, s') && s'.t.errors > s.t.errors }

  lemma InvCannotErr(s: State, c: int)
    requires InvBut(s, c) && c < |s.clients| && s.t.errors == 0
    ensures !CanErr(s)
  {
    hide InvBut;
    forall s' | Leads(s, s')
      ensures s'.t.errors == 0
    {
      var path: seq<State> :| Path(path) && path[0] == s && path[|path| - 1] == s';
      hide Path;
      NoErrorsAlong(path, c);
    }
  }

  // ---- The step itself ----

  /** The connection drops with nothing in the receive buffer while another thread of its client is between
      Connect and its first send. */
  ghost predicate EarlyDrop(s: State, a: Action) {
    a.Drop? && a.k < |s.links| && Kept(s, s.links[a.k].client) == [] && !NoneOpening(s, a.k)
  }

  /** It drops in the middle of a packet and leaves bytes that mislead the client. */
  ghost predicate MisleadingDrop(s: State, a: Action) {
    && a.Drop? && a.cut > 0 && Enabled(s, a)
    && Misleads(Left(s, a.k, a.cut, a.key))
  }

  /** While a client's connection is being opened nothing has come in on it. */
  lemma OpeningIsFresh(s: State, k: nat)
    requires TokenInv(s) && k < |s.links| && s.links[k].pc.Receiving? && !NoneOpening(s, k)
    ensures s.links[k].toClient == []
    ensures forall i :: 0 <= i < |s.links| && s.links[i].client == s.links[k].client ==> !InReceive(s.links[i].pc)
  {
    var c := s.links[k].client;
    InvOf(s, k);
    var j :| 0 <= j < |s.links| && s.links[j].client == c && Opening(s.links[j].pc);
    hide TokenInv, NoneOpening, RttOk, TokenOk;
    OpeningOwns(s.now, s.clients[c], c, s.links, j);
    forall i | 0 <= i < |s.links| && s.links[i].client == c && i != j
      ensures Retired(s.links[i].pc) || Fresh(s.links[i])
    {
      assert OtherOk(s.clients[c], s.links, i);
    }
  }

  lemma OpeningOwns(now: nat, cl: Client, c: nat, links: seq<Link>, j: nat)
    requires ClientInv(now, cl, c, links) && j < |links| && links[j].client == c && Opening(links[j].pc)
    ensures cl.owner == j && 0 <= cl.sock < |links| && Fresh(links[cl.sock])
  {
    WorkerIsOwner(now, cl, c, links, j);
  }

  /** The drop is tame, or its client was deaf before and is mute after it. */
  lemma HarmlessDrop(s: State, a: Action)
    requires TokenInv(s) && Enabled(s, a) && a.Drop? && !EarlyDrop(s, a) && !MisleadingDrop(s, a)
    ensures exists c: int :: c < |s.clients| && InvBut(Apply(s, a), c)
  {
    var c := s.links[a.k].client;
    if NoneOpening(s, a.k) {
      LeftDeafens(s, a);
      assert Tame(s, a);
      hide TokenInv, Apply, Tame;
      TokenStep(s, a);
      TokenIsInv(Apply(s, a));
    } else {
      hide Apply, Deafens;
      OpeningIsFresh(s, a.k);
      assert OwnToken(s, c);
      assert a.cut == 0 && c in s.kept;
      hide TokenInv, NoneOpening, Enabled;
      DeafDrops(s, a, c);
    }
  }

  lemma TokenIsInv(s: State)
    requires TokenInv(s)
    ensures InvBut(s, -1)
  {
    hide OwnToken, WellFormed;
  }

  lemma LeftDeafens(s: State, a: Action)
    requires TokenInv(s) && Enabled(s, a) && a.Drop? && !MisleadingDrop(s, a)
    ensures a.cut > 0 ==> Deafens(Left(s, a.k, a.cut, a.key))
  {
    var c := s.links[a.k].client;
    assert OwnToken(s, c);
    hide ClientInv, Deafens, TickWire, Misleads, Incomplete;
    if a.cut > 0 {
      LeftExactly(Kept(s, c), s.links[a.k].toClient[0], a.key, a.cut);
    }
  }

  lemma DeafDrops(s: State, a: Action, c: nat)
    requires TokenInv(s) && Enabled(s, a) && a.Drop? && a.cut == 0 && s.links[a.k].client == c && c in s.kept
    requires forall i :: 0 <= i < |s.links| && s.links[i].client == c ==> !InReceive(s.links[i].pc)
    ensures c < |s.clients| && InvBut(Apply(s, a), c)
  {
    var s' := Apply(s, a);
    assert c < |s.clients|;
    assert OwnToken(s, c);
    assert Muted(s', c) by { hide Deafens, ClientInv; }
    hide Apply, Muted, Deafens, ClientInv, WellFormed, Enabled;
    StaysWellFormed(s, a);
    forall d | 0 <= d < |s.clients| && d != c
      ensures OwnToken(s', d)
    {
      assert OwnToken(s, d);
      StepElsewhere(s, a, d);
      ElsewhereKeeps(s, s', d);
      KeptElsewhere(s, a, d);
    }
  }

  lemma RangeOf(states: seq<State>)
    requires TameRun(states)
    ensures InRange(states[|states| - 1].g)
  {
    TameRunIsRun(states);
    hide TameRun;
    hide LedgerInv;
    RunLedger(states);
  }

  lemma EarlyErrs(s: State, a: Action)
    requires TokenInv(s) && Enabled(s, a) && EarlyDrop(s, a)
    ensures CanErr(Apply(s, a))
  {
    hide TokenInv, CanErr, NoneOpening, Leads;
    OpeningIsFresh(s, a.k);
    assert a.cut == 0;
    assert Apply(s, a) == Apply(s, Drop(a.k, 0, 0));
    FirstTicks(s);
    DropKeepsErrors(s, a.k);
    hide Apply, Enabled;
    var s' := EarlyDropCanErr(s, a.k);
    CanErrBy(Apply(s, a), s');
  }

  lemma CanErrBy(s: State, s': State)
    requires Leads(s, s') && s'.t.errors == s.t.errors + 1
    ensures CanErr(s)
  {
  }

  lemma FirstTicks(s: State)
    requires TokenInv(s)
    ensures forall j :: 0 <= j < |s.links| && s.links[j].pc.SendingFirst? ==> s.links[j].pc.tick < TWO_POW_32
  {
    forall j | 0 <= j < |s.links| && s.links[j].pc.SendingFirst?
      ensures s.links[j].pc.tick < TWO_POW_32
    {
      InvOf(s, j);
      hide TokenInv, ClientInv;
      WorkerIsOwner(s.now, s.clients[s.links[j].client], s.links[j].client, s.links, j);
    }
  }

  lemma MisleadingErrs(s: State, a: Action)
    requires InRange(s.g) && MisleadingDrop(s, a)
    ensures CanErr(Apply(s, a))
  {
    hide CanErr, Misleads, InRange, Leads, Left;
    DropLeaves(s, a.k, a.cut, a.key);
    hide Apply, Enabled;
    var s' := MidPacketDropCanErr(s, a.k, a.cut, a.key);
    CanErrBy(Apply(s, a), s');
  }

  /** Exactly which step, after a tame run, can be followed by tame steps that count an echo error: a drop that is
      early and finds the receive buffer empty, or one that leaves bytes in it that mislead the client. What
      bytes do, LeftExactly and CutExactly say. */
  lemma ErrsExactly(states: seq<State>, a: Action)
    requires TameRun(states) && Enabled(states[|states| - 1], a)
    ensures var s := states[|states| - 1]; CanErr(Apply(s, a)) <==> EarlyDrop(s, a) || MisleadingDrop(s, a)
  {
    var s := states[|states| - 1];
    RunToken(states);
    NoErrors(states);
    RangeOf(states);
    hide TokenInv, CanErr, EarlyDrop, MisleadingDrop, InvBut, InRange, Apply, Enabled, TameRun;
    if EarlyDrop(s, a) {
      EarlyErrs(s, a);
    } else if MisleadingDrop(s, a) {
      MisleadingErrs(s, a);
    } else {
      Harmless(s, a);
    }
  }

  lemma Harmless(s: State, a: Action)
    requires TokenInv(s) && s.t.errors == 0 && Enabled(s, a) && !EarlyDrop(s, a) && !MisleadingDrop(s, a)
    ensures !CanErr(Apply(s, a))
  {
    hide CanErr, InvBut, TokenInv, Apply;
    StepKeepsErrors(s, a);
    if a.Drop? {
      hide EarlyDrop, MisleadingDrop, Enabled;
      HarmlessDrop(s, a);
    } else {
      hide EarlyDrop, MisleadingDrop;
      assert Tame(s, a);
      TokenStep(s, a);
      TokenIsInv(Apply(s, a));
      hide Enabled;
    }
    var c: int :| c < |s.clients| && InvBut(Apply(s, a), c);
    InvCannotErr(Apply(s, a), c);
  }

  lemma StepKeepsErrors(s: State, a: Action)
    requires TokenInv(s) && s.t.errors == 0 && Enabled(s, a)
    ensures Apply(s, a).t.errors == 0 && |Apply(s, a).clients| == |s.clients|
  {
    hide Apply, WellFormed, OwnToken;
    StaysWellFormed(s, a);
    if a.Work? {
      NoThreadErrs(s, a.k);
    }
    ErrorsOnlyThere(s, a);
  }
}
