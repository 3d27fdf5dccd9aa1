/** When a client stops for good: mbIsConnected is true, so that Connect always fails, and no thread is left
    that could receive on the connection or see it drop. */
module EchoStuck {
  import opened EchoModel
  import opened EchoReconnectRace
  import opened EchoFailures
  import opened EchoToken

  /** No thread of client c receives, or handles what it has received, and yet it counts as connected. */
  ghost predicate Stuck(s: State, c: nat) {
    && c < |s.clients| && s.clients[c].connected
    && forall k :: 0 <= k < |s.links| && s.links[k].client == c ==>
        !s.links[k].pc.Receiving? && !InReceive(s.links[k].pc)
  }

  /** A connection of client c drops while another thread of the client is between Connect's receive thread
      and its store to mbIsConnected. */
  ghost predicate DropsWhileMarking(s: State, a: Action, c: nat) {
    && DropOf(s, a, c)
    && exists j :: 0 <= j < |s.links| && s.links[j].client == c && s.links[j].pc.MarkingConnected?
  }

  // ---- One client's threads ----

  /** What matters of a thread: it receives; it is on its way to Connect or there; it is about to set
      mbIsConnected; or none of these. Threads of other clients are `Past`. */
  datatype Kind = Busy | Leaving | Marking | Past

  function KindOf(pc: Pc): Kind {
    if pc.Receiving? || InReceive(pc) then Busy
    else if Disconnecting(pc) then Leaving
    else if pc.MarkingConnected? then Marking
    else Past
  }

  function KindFor(link: Link, c: nat): Kind { if link.client == c then KindOf(link.pc) else Past }

  function View(links: seq<Link>, c: nat): (view: seq<Kind>)
    ensures |view| == |links| && forall i :: 0 <= i < |links| ==> view[i] == KindFor(links[i], c)
  {
    seq(|links|, i requires 0 <= i < |links| => KindFor(links[i], c))
  }

  /** What a step does to the threads of one client and its mbIsConnected; `drop` says that it is a drop of one
      of the client's connections. */
  ghost predicate ViewStep(drop: bool, connected: bool, view: seq<Kind>, connected': bool, view': seq<Kind>) {
    || (connected' == connected && (view' == view || view' == view + [Past]))
    || (drop && !connected' && Drops(view, view'))
    || (!connected && !connected' && Connects(view, view'))
    || (connected' && Marks(view, view'))
  }

  ghost predicate Drops(view: seq<Kind>, view': seq<Kind>) {
    exists k :: 0 <= k < |view| && view[k].Busy? && view' == view[k := Leaving]
  }

  ghost predicate Connects(view: seq<Kind>, view': seq<Kind>) {
    exists k :: 0 <= k < |view| && view[k].Leaving? && view' == view[k := Marking] + [Busy]
  }

  ghost predicate Marks(view: seq<Kind>, view': seq<Kind>) {
    exists k :: 0 <= k < |view| && view[k].Marking? && view' == view[k := Past]
  }

  /** Only Connect of a client that is not connected adds a connection. */
  ghost predicate NoNewLink(links: seq<Link>, links': seq<Link>, c: nat) {
    && |links| <= |links'|
    && (forall i :: 0 <= i < |links| ==> links'[i].client == links[i].client)
    && forall i :: |links| <= i < |links'| ==> links'[i].client != c
  }

  predicate DropOf(s: State, a: Action, c: nat) { a.Drop? && a.k < |s.links| && s.links[a.k].client == c }

  ghost predicate StepSeen(s: State, a: Action, s': State, c: nat)
    requires c < |s.clients|
  {
    && |s'.clients| == |s.clients|
    && ViewStep(DropOf(s, a, c), s.clients[c].connected, View(s.links, c), s'.clients[c].connected, View(s'.links, c))
    && (s.clients[c].connected ==> NoNewLink(s.links, s'.links, c))
  }

  /** Connections keep their client and, all but one perhaps, the place of their thread. */
  predicate Moves(links: seq<Link>, links': seq<Link>, k: nat) {
    && |links'| == |links|
    && forall i :: 0 <= i < |links| ==> links'[i].client == links[i].client && (i != k ==> links'[i].pc == links[i].pc)
  }

  lemma SameView(links: seq<Link>, links': seq<Link>, k: nat, c: nat)
    requires Moves(links, links', k) && (k < |links| ==> KindFor(links'[k], c) == KindFor(links[k], c))
    ensures View(links', c) == View(links, c) && NoNewLink(links, links', c)
  {
    hide KindOf;
  }

  /** A step that moves one thread within its kind, or none. */
  lemma SeenQuietly(s: State, a: Action, s': State, k: nat, c: nat)
    requires c < |s.clients| == |s'.clients| && s'.clients[c].connected == s.clients[c].connected
    requires Moves(s.links, s'.links, k) && (k < |s.links| ==> KindFor(s'.links[k], c) == KindFor(s.links[k], c))
    ensures StepSeen(s, a, s', c)
  {
    hide KindFor, Moves;
    SameView(s.links, s'.links, k, c);
  }

  // ---- Every step as a step of the view ----

  /** Steps other than a drop, Connect's success and the store to mbIsConnected. */
  predicate Plain(s: State, a: Action)
    requires Enabled(s, a)
  {
    && !a.Drop?
    && (a.Work? && s.links[a.k].pc.Connecting? ==> s.clients[s.links[a.k].client].connected || !a.ok)
    && (a.Work? ==> !s.links[a.k].pc.MarkingConnected?)
  }

  /** A plain step moves its thread within its kind. */
  predicate Quiet(s: State, s': State, k: nat) {
    && Moves(s.links, s'.links, k) && |s'.clients| == |s.clients|
    && (k < |s.links| ==> KindOf(s'.links[k].pc) == KindOf(s.links[k].pc))
    && forall d :: 0 <= d < |s.clients| ==> s'.clients[d].connected == s.clients[d].connected
  }

  lemma TransportQuiet(s: State, a: Action)
    requires Enabled(s, a) && !a.Work? && !a.Drop?
    ensures Quiet(s, Apply(s, a), Acted(s, a))
  {
    hide Read, Wrap32;
  }

  lemma OnReceiveQuiet(s: State, k: nat)
    requires k < |s.links| && InReceive(s.links[k].pc) && s.links[k].client < |s.clients|
    ensures Quiet(s, OnReceiveStep(s, k), k)
  {
    hide Wrap32, Wrap64, Tick;
  }

  lemma OnDisconnectQuiet(s: State, k: nat, ok: bool)
    requires Enabled(s, Work(k, ok)) && !InReceive(s.links[k].pc) && Plain(s, Work(k, ok))
    ensures Quiet(s, OnDisconnectStep(s, k, ok), k)
  {
    if s.links[k].pc.SendingFirst? {
      FirstSendQuiet(s, k, ok);
    } else if s.links[k].pc.Connecting? {
      hide Wrap32, Wrap64, Tick, SendTo, Target, InReceive;
    } else {
      OthersQuiet(s, k, ok);
    }
  }

  lemma OthersQuiet(s: State, k: nat, ok: bool)
    requires Enabled(s, Work(k, ok)) && !InReceive(s.links[k].pc) && Plain(s, Work(k, ok))
    requires !s.links[k].pc.SendingFirst? && !s.links[k].pc.Connecting?
    ensures Quiet(s, OnDisconnectStep(s, k, ok), k)
  {
    hide OnDisconnectStep, KindOf, InReceive;
    OthersKind(s, k, ok);
    PcFrame(s, k, ok);
    if s.links[k].pc.ReadingClock? || s.links[k].pc.StoringTick? {
      ConnectedStays(s, k, ok);
    } else {
      CountingFrame(s, k, ok);
    }
  }

  lemma ConnectedStays(s: State, k: nat, ok: bool)
    requires Enabled(s, Work(k, ok)) && (s.links[k].pc.ReadingClock? || s.links[k].pc.StoringTick?)
    ensures
      var c, s' := s.links[k].client, OnDisconnectStep(s, k, ok);
      c < |s'.clients| && s'.clients[c].connected == s.clients[c].connected
  {
    hide Wrap32, Wrap64, Tick, SendTo, Target;
  }

  lemma OthersKind(s: State, k: nat, ok: bool)
    requires Enabled(s, Work(k, ok)) && !InReceive(s.links[k].pc) && !s.links[k].pc.MarkingConnected?
    requires !s.links[k].pc.SendingFirst? && !s.links[k].pc.Connecting?
    ensures var s' := OnDisconnectStep(s, k, ok); k < |s'.links| && KindOf(s'.links[k].pc) == KindOf(s.links[k].pc)
  {
    hide KindOf, InReceive, Wrap32, Wrap64, Tick, SendTo, Target;
    var pc, pc' := s.links[k].pc, OnDisconnectStep(s, k, ok).links[k].pc;
    Places(pc);
    assert Disconnecting(pc) ==> Disconnecting(pc');
    assert !Disconnecting(pc) ==> IsPast(pc) && IsPast(pc');
    hide OnDisconnectStep;
    Kinds(pc);
    Kinds(pc');
  }

  /** Past the store to mbIsConnected. */
  predicate IsPast(pc: Pc) { pc.ReadingClock? || pc.StoringTick? || pc.SendingFirst? || Retired(pc) }

  lemma Places(pc: Pc)
    requires !InReceive(pc) && !pc.Receiving? && !pc.MarkingConnected?
    ensures Disconnecting(pc) || IsPast(pc)
  {
  }

  lemma Kinds(pc: Pc)
    ensures (Disconnecting(pc) ==> KindOf(pc) == Leaving) && (IsPast(pc) ==> KindOf(pc) == Past)
  {
  }

  lemma FirstSendQuiet(s: State, k: nat, ok: bool)
    requires Enabled(s, Work(k, ok)) && s.links[k].pc.SendingFirst?
    ensures Quiet(s, OnDisconnectStep(s, k, ok), k)
  {
    hide Wrap32, Wrap64, Tick, Target;
  }

  lemma PlainSeen(s: State, a: Action, c: nat)
    requires Enabled(s, a) && Plain(s, a) && c < |s.clients|
    ensures StepSeen(s, a, Apply(s, a), c)
  {
    var k := Acted(s, a);
    hide StepSeen, Quiet, OnReceiveStep, OnDisconnectStep;
    if !a.Work? {
      TransportQuiet(s, a);
    } else if InReceive(s.links[k].pc) {
      OnReceiveQuiet(s, k);
    } else {
      OnDisconnectQuiet(s, k, a.ok);
    }
    hide Apply, Enabled, Plain, Acted;
    QuietSeen(s, a, Apply(s, a), k, c);
  }

  lemma QuietSeen(s: State, a: Action, s': State, k: nat, c: nat)
    requires Quiet(s, s', k) && c < |s.clients|
    ensures StepSeen(s, a, s', c)
  {
    hide StepSeen, KindOf;
    SeenQuietly(s, a, s', k, c);
  }

  lemma DropSeen(s: State, a: Action, c: nat)
    requires Enabled(s, a) && a.Drop? && c < |s.clients|
    ensures StepSeen(s, a, Apply(s, a), c)
  {
    var k := a.k;
    hide Left, Incomplete;
    var s' := Apply(s, a);
    assert s'.links == s.links[k := s.links[k].(pc := Dropped, up := false)];
    if s.links[k].client == c {
      assert View(s'.links, c) == View(s.links, c)[k := Leaving];
      assert View(s.links, c)[k].Busy?;
      assert Drops(View(s.links, c), View(s'.links, c));
      hide View;
    } else {
      hide StepSeen;
      SeenQuietly(s, a, s', k, c);
    }
  }

  lemma MarkSeen(s: State, k: nat, ok: bool, c: nat)
    requires Enabled(s, Work(k, ok)) && s.links[k].pc.MarkingConnected? && c < |s.clients|
    ensures StepSeen(s, Work(k, ok), Apply(s, Work(k, ok)), c)
  {
    var a := Work(k, ok);
    var s' := Apply(s, a);
    assert s'.links == s.links[k := s.links[k].(pc := ReadingClock)];
    if s.links[k].client == c {
      assert View(s'.links, c) == View(s.links, c)[k := Past];
      assert View(s.links, c)[k].Marking?;
      assert Marks(View(s.links, c), View(s'.links, c));
    } else {
      hide StepSeen;
      SeenQuietly(s, a, s', k, c);
    }
  }

  lemma ConnectSeen(s: State, k: nat, c: nat)
    requires Enabled(s, Work(k, true)) && s.links[k].pc.Connecting? && !s.clients[s.links[k].client].connected
      && c < |s.clients|
    ensures StepSeen(s, Work(k, true), Apply(s, Work(k, true)), c)
  {
    var s' := Apply(s, Work(k, true));
    var d := s.links[k].client;
    assert s'.links == s.links[k := s.links[k].(pc := MarkingConnected)] +
      [Link(d, Receiving, true, [], Server.Quiet, [], 0, 0)];
    if d == c {
      assert View(s'.links, c) == View(s.links, c)[k := Marking] + [Busy];
      assert View(s.links, c)[k].Leaving?;
      assert Connects(View(s.links, c), View(s'.links, c));
    } else {
      assert View(s'.links, c) == View(s.links, c) + [Past];
    }
  }

  lemma Seen(s: State, a: Action, c: nat)
    requires Enabled(s, a) && c < |s.clients|
    ensures StepSeen(s, a, Apply(s, a), c)
  {
    hide Apply, StepSeen;
    if Plain(s, a) {
      PlainSeen(s, a, c);
    } else if a.Drop? {
      DropSeen(s, a, c);
    } else if s.links[a.k].pc.MarkingConnected? {
      MarkSeen(s, a.k, a.ok, c);
    } else {
      ConnectSeen(s, a.k, c);
    }
  }

  // ---- For good ----

  predicate Idle(view: seq<Kind>) { forall i :: 0 <= i < |view| ==> !view[i].Busy? }

  lemma StuckIsIdle(s: State, c: nat)
    requires c < |s.clients|
    ensures Stuck(s, c) <==> s.clients[c].connected && Idle(View(s.links, c))
  {
    hide InReceive;
    forall i | 0 <= i < |s.links|
      ensures View(s.links, c)[i].Busy? <==>
        s.links[i].client == c && (s.links[i].pc.Receiving? || InReceive(s.links[i].pc))
    {
    }
  }

  lemma IdleStays(drop: bool, view: seq<Kind>, connected': bool, view': seq<Kind>)
    requires Idle(view) && ViewStep(drop, true, view, connected', view')
    ensures connected' && Idle(view')
  {
  }

  lemma StuckStays(s: State, a: Action, c: nat)
    requires Stuck(s, c) && Enabled(s, a)
    ensures Stuck(Apply(s, a), c) && NoNewLink(s.links, Apply(s, a).links, c)
  {
    assert c < |s.clients|;
    hide Stuck, Apply, Enabled, View, Idle, NoNewLink, ViewStep;
    var s' := Apply(s, a);
    StuckIsIdle(s, c);
    Seen(s, a, c);
    StuckIsIdle(s', c);
    IdleStays(DropOf(s, a, c), View(s.links, c), s'.clients[c].connected, View(s'.links, c));
  }

  /** A client that is stuck stays so whatever happens, tame or not: it never connects again. */
  lemma {:induction false} StuckForever(states: seq<State>, c: nat)
    requires states != [] && Stuck(states[0], c)
    requires forall i {:trigger states[i]} :: 0 < i < |states| ==> AnyStep(states[i - 1], states[i])
    ensures Stuck(states[|states| - 1], c) && NoNewLink(states[0].links, states[|states| - 1].links, c)
    decreases |states|
  {
    hide Stuck, Apply, Enabled;
    if |states| > 1 {
      var k := |states| - 1;
      StuckForever(states[..k], c);
      assert AnyStep(states[k - 1], states[k]);
      var a :| Enabled(states[k - 1], a) && states[k] == Apply(states[k - 1], a);
      StuckStays(states[k - 1], a, c);
    }
  }

  // ---- Exactly when ----

  /** At most one thread of a client receives or is on its way to Connect; if one is on its way, the client
      does not count as connected and is not about to; if it does or is, a thread receives. */
  ghost predicate Sound(connected: bool, view: seq<Kind>) {
    && (forall i, j :: 0 <= i < j < |view| && (view[i].Busy? || view[i].Leaving?) ==>
        !view[j].Busy? && !view[j].Leaving?)
    && (forall i :: 0 <= i < |view| && view[i].Leaving? ==> !connected && !HasMark(view))
    && (connected || HasMark(view) ==> !Idle(view))
  }

  predicate HasMark(view: seq<Kind>) { exists i :: 0 <= i < |view| && view[i].Marking? }

  /** Every step but a drop that finds a mark keeps this. */
  lemma SoundStep(drop: bool, connected: bool, view: seq<Kind>, connected': bool, view': seq<Kind>)
    requires Sound(connected, view) && ViewStep(drop, connected, view, connected', view') && (drop ==> !HasMark(view))
    ensures Sound(connected', view')
  {
    if connected' || HasMark(view') {
      BusyStays(drop, connected, view, connected', view');
    }
  }

  lemma BusyStays(drop: bool, connected: bool, view: seq<Kind>, connected': bool, view': seq<Kind>)
    requires Sound(connected, view) && ViewStep(drop, connected, view, connected', view') && (drop ==> !HasMark(view))
    requires connected' || HasMark(view')
    ensures !Idle(view')
  {
    if k :| 0 <= k < |view| && view[k].Leaving? && view' == view[k := Marking] + [Busy] {
      assert view'[|view|].Busy?;
    } else {
      if j :| 0 <= j < |view'| && view'[j].Marking? {
        assert j < |view| && view[j].Marking?;
      }
      assert connected || HasMark(view);
      var i :| 0 <= i < |view| && view[i].Busy?;
      assert view'[i].Busy?;
    }
  }

  lemma SoundIsNotStuck(s: State, c: nat)
    requires c < |s.clients| && Sound(s.clients[c].connected, View(s.links, c))
    ensures !Stuck(s, c)
  {
    hide View, Stuck;
    StuckIsIdle(s, c);
  }

  lemma MarkIsThread(s: State, c: nat)
    ensures HasMark(View(s.links, c)) <==>
      exists j :: 0 <= j < |s.links| && s.links[j].client == c && s.links[j].pc.MarkingConnected?
  {
    forall j | 0 <= j < |s.links|
      ensures View(s.links, c)[j].Marking? <==> s.links[j].client == c && s.links[j].pc.MarkingConnected?
    {
    }
    if j :| 0 <= j < |s.links| && s.links[j].client == c && s.links[j].pc.MarkingConnected? {
      assert View(s.links, c)[j].Marking?;
    }
  }

  lemma SoundKept(s: State, a: Action, c: nat)
    requires c < |s.clients| && Sound(s.clients[c].connected, View(s.links, c)) && Enabled(s, a)
      && !DropsWhileMarking(s, a, c)
    ensures
      var s' := Apply(s, a);
      c < |s'.clients| && Sound(s'.clients[c].connected, View(s'.links, c))
  {
    hide Apply, Enabled, View, Sound, HasMark, ViewStep;
    var s' := Apply(s, a);
    Seen(s, a, c);
    MarkIsThread(s, c);
    SoundStep(DropOf(s, a, c), s.clients[c].connected, View(s.links, c), s'.clients[c].connected, View(s'.links, c));
  }

  lemma StartSound(s: State, c: nat)
    requires IsStart(s) && c < |s.clients|
    ensures Sound(s.clients[c].connected, View(s.links, c))
  {
    var cl, view := s.clients[c], View(s.links, c);
    assert ClientInv(s.now, cl, c, s.links);
    hide IsStart, RttOk, TokenOk;
    if cl.owner >= 0 {
      forall i | 0 <= i < |view| && i != cl.owner
        ensures view[i].Past? || (Opening(s.links[cl.owner].pc) && i == cl.sock)
      {
        assert s.links[i].client == c ==> OtherOk(cl, s.links, i);
      }
    }
  }

  /** A run in which no connection of client c drops while another of its threads is about to set
      mbIsConnected. */
  ghost predicate UnmarkedRun(states: seq<State>, c: nat) {
    && states != [] && IsStart(states[0]) && c < |states[0].clients|
    && forall i {:trigger states[i]} :: 0 < i < |states| ==> UnmarkedStep(states[i - 1], states[i], c)
  }

  ghost predicate UnmarkedStep(s: State, s': State, c: nat) {
    exists a :: Enabled(s, a) && !DropsWhileMarking(s, a, c) && s' == Apply(s, a)
  }

  lemma {:induction false} RunSound(states: seq<State>, c: nat)
    requires UnmarkedRun(states, c)
    ensures
      var s := states[|states| - 1];
      c < |s.clients| && Sound(s.clients[c].connected, View(s.links, c))
    decreases |states|
  {
    hide Sound, Apply, Enabled, DropsWhileMarking, IsStart, View;
    if |states| == 1 {
      StartSound(states[0], c);
    } else {
      var k := |states| - 1;
      assert UnmarkedRun(states[..k], c) by {
        forall i | 0 < i < k
          ensures UnmarkedStep(states[..k][i - 1], states[..k][i], c)
        {
          assert UnmarkedStep(states[i - 1], states[i], c);
        }
      }
      RunSound(states[..k], c);
      assert UnmarkedStep(states[k - 1], states[k], c);
      var a :| Enabled(states[k - 1], a) && !DropsWhileMarking(states[k - 1], a, c)
        && states[k] == Apply(states[k - 1], a);
      SoundKept(states[k - 1], a, c);
    }
  }

  /** Without such a drop no client is ever stuck. */
  lemma NeverStuck(states: seq<State>, c: nat)
    requires UnmarkedRun(states, c)
    ensures !Stuck(states[|states| - 1], c)
  {
    hide Sound, Stuck, IsStart;
    RunSound(states, c);
    SoundIsNotStuck(states[|states| - 1], c);
  }

  /** Some thread's next step leaves client c stuck. */
  ghost predicate AboutToStick(s: State, c: nat) {
    exists j :: Enabled(s, Work(j, true)) && Stuck(Apply(s, Work(j, true)), c)
  }

  /** After a drop with a mark nobody of the client receives any more; the mark makes it stuck. */
  lemma MarkSticks(s: State, a: Action, c: nat)
    requires c < |s.clients| && Sound(s.clients[c].connected, View(s.links, c)) && Enabled(s, a)
      && DropsWhileMarking(s, a, c)
    ensures AboutToStick(Apply(s, a), c)
  {
    var j :| 0 <= j < |s.links| && s.links[j].client == c && s.links[j].pc.MarkingConnected?;
    var s1 := Dropping(s, a, c, j);
    hide Sound, View, Stuck;
    var s2 := Marked(s1, j, c);
    assert Enabled(s1, Work(j, true)) && Stuck(Apply(s1, Work(j, true)), c);
  }

  lemma Dropping(s: State, a: Action, c: nat, j: nat) returns (s': State)
    requires c < |s.clients| && Sound(s.clients[c].connected, View(s.links, c)) && Enabled(s, a) && DropOf(s, a, c)
    requires j < |s.links| && s.links[j].client == c && s.links[j].pc.MarkingConnected?
    ensures s' == Apply(s, a) && c < |s'.clients| && Idle(View(s'.links, c))
    ensures j < |s'.links| && s'.links[j] == s.links[j]
  {
    hide Left, Incomplete;
    s' := Apply(s, a);
    assert s'.links == s.links[a.k := s.links[a.k].(pc := Dropped, up := false)];
    assert View(s'.links, c) == View(s.links, c)[a.k := Leaving];
    assert View(s.links, c)[a.k].Busy?;
  }

  lemma Marked(s: State, j: nat, c: nat) returns (s': State)
    requires c < |s.clients| && Idle(View(s.links, c)) && j < |s.links| && s.links[j].client == c
      && s.links[j].pc.MarkingConnected?
    ensures Enabled(s, Work(j, true)) && s' == Apply(s, Work(j, true)) && Stuck(s', c)
  {
    s' := Apply(s, Work(j, true));
    assert s'.links == s.links[j := s.links[j].(pc := ReadingClock)];
    assert View(s'.links, c) == View(s.links, c)[j := Past];
    hide Stuck, View, Apply;
    StuckIsIdle(s', c);
  }

  /** Exactly when, from a run without such a drop on: a step can be followed by one that leaves the client stuck
      if and only if it is a drop while another thread of the client is about to set mbIsConnected. */
  lemma StuckExactly(states: seq<State>, a: Action, c: nat)
    requires UnmarkedRun(states, c) && Enabled(states[|states| - 1], a)
    ensures var s := states[|states| - 1]; AboutToStick(Apply(s, a), c) <==> DropsWhileMarking(s, a, c)
  {
    var s := states[|states| - 1];
    RunSound(states, c);
    hide UnmarkedRun, Sound, Stuck, Apply, Enabled, DropsWhileMarking, View;
    if DropsWhileMarking(s, a, c) {
      MarkSticks(s, a, c);
    } else {
      SoundKept(s, a, c);
      forall j | Enabled(Apply(s, a), Work(j, true))
        ensures !Stuck(Apply(Apply(s, a), Work(j, true)), c)
      {
        WorkIsNoDrop(Apply(s, a), j, c);
        SoundKept(Apply(s, a), Work(j, true), c);
        SoundIsNotStuck(Apply(Apply(s, a), Work(j, true)), c);
      }
    }
  }

  lemma WorkIsNoDrop(s: State, j: nat, c: nat)
    ensures !DropsWhileMarking(s, Work(j, true), c)
  {
  }

  /** With one client, from a start: the new connection drops before its thread has marked it connected, and the
      client is stuck. All other steps are tame. */
  lemma StuckHappens() returns (states: seq<State>, k: nat)
    ensures OneUntame(states, k, Drop(1, 0, 0)) && |states[0].clients| == 1 && Stuck(states[|states| - 1], 0)
  {
    hide Leads, IsStart, OneUntame, Stuck;
    OneIsStart(0);
    var s := DropsEarly();
    var s' := DropsThenMarks(s);
    states, k := Joined(One(0), s, Drop(1, 0, 0), s');
  }

  lemma DropsThenMarks(s: State) returns (s': State)
    requires Enabled(s, Drop(1, 0, 0)) && |s.links| == 2 && |s.clients| == 1
    requires s.links[0].client == 0 == s.links[1].client && s.links[0].pc.MarkingConnected?
    ensures Leads(Apply(s, Drop(1, 0, 0)), s') && Stuck(s', 0)
  {
    hide Leads, Left;
    var s1 := Apply(s, Drop(1, 0, 0));
    LeadsHere(s1);
    s' := Apply(s1, Work(0, true));
    Then(s1, s1, Work(0, true), s');
  }
}
