/** What the network carries and what main reports, said of the actions of the run: from any state, whatever the
    threads do. */
module EchoNetwork {
  import opened EchoModel
  import opened EchoCounters

  /** A run with its actions, from any state: action i leads from state i to the next. */
  ghost predicate Trace(states: seq<State>, actions: seq<Action>) {
    && |states| == |actions| + 1
    && forall i :: 0 <= i < |actions| ==>
         Enabled(states[i], actions[i]) && states[i + 1] == Apply(states[i], actions[i])
  }

  lemma ShorterTrace(states: seq<State>, actions: seq<Action>, k: nat)
    requires Trace(states, actions) && k <= |actions|
    ensures Trace(states[..k + 1], actions[..k])
  {
  }

  // ---- What goes over a connection ----

  /** The packets between a client's send and its receive, the next to come in first. */
  function Line(link: Link): seq<nat> {
    link.toClient + (if link.server.Echoing? then [link.server.tick] else []) + link.toServer
  }

  function Busy(link: Link): int { if link.server.Echoing? then 1 else 0 }

  /** A connection as it is opened. */
  function Opened(client: nat): Link { Link(client, Receiving, true, [], Quiet, [], 0, 0) }

  /** Connection k as it is at first. */
  function AtFirst(s: State, k: nat): Link { if k < |s.links| then s.links[k] else Opened(0) }

  /** The packet that a step hands to the socket of connection k: that of a SendPacket while the client is
      connected over it. */
  function Sends(s: State, a: Action, k: nat): seq<nat> {
    if a.Work? && k < |s.links| && a.k < |s.links| && s.links[a.k].client < |s.clients|
      && s.clients[s.links[a.k].client].connected && s.clients[s.links[a.k].client].sock == k
    then
      match s.links[a.k].pc
      case Sending(tick) => [tick]
      case SendingFirst(tick) => [tick]
      case _ => []
    else []
  }

  function Sent(states: seq<State>, actions: seq<Action>, k: nat): seq<nat>
    requires |states| == |actions| + 1
  {
    if actions == [] then [] else
    var n := |actions| - 1;
    Sent(states[..n + 1], actions[..n], k) + Sends(states[n], actions[n], k)
  }

  /** How often the client has received on connection k. */
  function Receives(actions: seq<Action>, k: nat): nat {
    if actions == [] then 0 else
    var n := |actions| - 1;
    Receives(actions[..n], k) + if actions[n].Receive? && actions[n].k == k then 1 else 0
  }

  /** How often the server has. */
  function ServerReceives(actions: seq<Action>, k: nat): nat {
    if actions == [] then 0 else
    var n := |actions| - 1;
    ServerReceives(actions[..n], k) + if actions[n].ServerReceive? && actions[n].k == k then 1 else 0
  }

  function ServerSends(actions: seq<Action>, k: nat): nat {
    if actions == [] then 0 else
    var n := |actions| - 1;
    ServerSends(actions[..n], k) + if actions[n].ServerSend? && actions[n].k == k then 1 else 0
  }

  /** The connection has been lost at one of its ends, or between them. */
  predicate Ends(actions: seq<Action>, k: nat) {
    exists i {:trigger actions[i]} :: 0 <= i < |actions| && (actions[i].Cut? || actions[i].Drop?) && actions[i].k == k
  }

  function One(b: bool): nat { if b then 1 else 0 }

  /** What a step that keeps connection k up does to it. */
  ghost predicate Carried(s: State, a: Action, k: nat, s': State) {
    && |s.links| <= |s'.links| && k < |s'.links|
    && var link, link', sent := AtFirst(s, k), s'.links[k], Sends(s, a, k);
    && (link'.up <==> link.up && !((a.Cut? || a.Drop?) && a.k == k))
    && (link'.up ==>
          && |Line(link')| == |Line(link)| + |sent| - One(a.Receive? && a.k == k)
          && Line(link') == (Line(link) + sent)[One(a.Receive? && a.k == k)..]
          && |link'.toServer| == |link.toServer| + |sent| - One(a.ServerReceive? && a.k == k)
          && Busy(link') == Busy(link) + One(a.ServerReceive? && a.k == k) - One(a.ServerSend? && a.k == k))
    && (!link.up ==>
          && One(a.Receive? && a.k == k) <= |link.toClient| && One(a.ServerReceive? && a.k == k) <= |link.toServer|
          && link'.toClient == link.toClient[One(a.Receive? && a.k == k)..]
          && link'.toServer == link.toServer[One(a.ServerReceive? && a.k == k)..]
          && link'.lost == link.lost + |sent| + One(a.ServerSend? && a.k == k))
  }

  /** Only the place in its code is another. */
  predicate SameTraffic(link: Link, link': Link) { link'.(client := 0) == link.(pc := link'.pc, client := 0) }

  lemma NothingCarried(s: State, a: Action, k: nat, s': State)
    requires Enabled(s, a) && k < |s'.links| && |s.links| <= |s'.links| && Sends(s, a, k) == []
    requires SameTraffic(AtFirst(s, k), s'.links[k])
    requires (a.Cut? || a.Drop? || a.Receive? || a.ServerReceive? || a.ServerSend?) ==> a.k != k
    ensures Carried(s, a, k, s')
  {
    hide Apply, Enabled, Sends;
    var link := AtFirst(s, k);
    assert Line(link) + [] == Line(link) && Line(link)[0..] == Line(link);
  }

  lemma TransportCarries(s: State, a: Action, k: nat)
    requires Enabled(s, a) && k < |s.links| && (a.Receive? || a.ServerReceive? || a.ServerSend?) && a.k == k
    ensures Carried(s, a, k, Apply(s, a))
  {
    hide Apply, Carried;
    if a.Receive? {
      ReceiveCarries(s, a);
    } else {
      ServerCarries(s, a);
    }
  }

  lemma ReceiveCarries(s: State, a: Action)
    requires Enabled(s, a) && a.Receive?
    ensures Carried(s, a, a.k, Apply(s, a))
  {
    ReceiveTakes(s, a);
    var s' := Apply(s, a);
    NoSends(s, a, a.k);
    hide Apply, Enabled, Sends;
    var link, link' := s.links[a.k], s'.links[a.k];
    LineTakes(link, link');
  }

  lemma NoSends(s: State, a: Action, k: nat)
    requires !a.Work?
    ensures Sends(s, a, k) == []
  {
  }

  lemma LineTakes(link: Link, link': Link)
    requires link.toClient != [] && link'.toClient == link.toClient[1..]
    requires link'.server == link.server && link'.toServer == link.toServer
    ensures Line(link) + [] == Line(link) && |Line(link')| == |Line(link)| - 1 && Line(link') == Line(link)[1..]
  {
  }

  lemma ReceiveTakes(s: State, a: Action)
    requires Enabled(s, a) && a.Receive?
    ensures
      var s' := Apply(s, a);
      && |s'.links| == |s.links| && s.links[a.k].toClient != []
      && var link, link' := s.links[a.k], s'.links[a.k];
      link' == link.(pc := link'.pc, swallowed := link'.swallowed, toClient := link.toClient[1..])
  {
    hide Read;
  }

  lemma ServerCarries(s: State, a: Action)
    requires Enabled(s, a) && (a.ServerReceive? || a.ServerSend?)
    ensures Carried(s, a, a.k, Apply(s, a))
  {
    var link, link' := s.links[a.k], Apply(s, a).links[a.k];
    if a.ServerReceive? || link.up {
      assert Line(link') == Line(link) == (Line(link) + [])[0..];
    }
  }

  lemma EndingCarries(s: State, a: Action, k: nat)
    requires Enabled(s, a) && k < |s.links| && (a.Cut? || a.Drop?) && a.k == k
    ensures Carried(s, a, k, Apply(s, a))
  {
    hide Left, Incomplete, Read, Line;
  }

  lemma OtherCarries(s: State, a: Action, k: nat)
    requires Enabled(s, a) && k < |s.links| && !a.Work? && Acted(s, a) != k
    ensures Carried(s, a, k, Apply(s, a))
  {
    OtherLinkSame(s, a, k);
    hide Apply, Enabled, Carried;
    NothingCarried(s, a, k, Apply(s, a));
  }

  lemma OtherLinkSame(s: State, a: Action, k: nat)
    requires Enabled(s, a) && k < |s.links| && !a.Work? && Acted(s, a) != k
    ensures var s' := Apply(s, a); |s'.links| == |s.links| && s'.links[k] == s.links[k]
  {
    hide Read, Left, Incomplete, Wrap32;
  }

  /** A step that sends nothing. */
  lemma QuietWork(s: State, k: nat, a: Action)
    requires a.Work? && Enabled(s, a) && !s.links[a.k].pc.Sending? && !s.links[a.k].pc.SendingFirst?
    requires k < |Step(s, a.k, a.ok).links|
    ensures Carried(s, a, k, Step(s, a.k, a.ok))
  {
    QuietTraffic(s, k, a);
    hide Step, Enabled, Carried;
    NothingCarried(s, a, k, Step(s, a.k, a.ok));
  }

  lemma QuietTraffic(s: State, k: nat, a: Action)
    requires a.Work? && Enabled(s, a) && !s.links[a.k].pc.Sending? && !s.links[a.k].pc.SendingFirst?
    requires k < |Step(s, a.k, a.ok).links|
    ensures |s.links| <= |Step(s, a.k, a.ok).links| && SameTraffic(AtFirst(s, k), Step(s, a.k, a.ok).links[k])
  {
    if s.links[a.k].pc.Connecting? {
      hide Wrap32, Wrap64, Tick;
    } else {
      OneLinkMoves(s, a.k, a.ok);
      QuietThread(s, a);
      hide Step;
    }
  }

  lemma QuietThread(s: State, a: Action)
    requires a.Work? && Enabled(s, a) && !s.links[a.k].pc.Sending? && !s.links[a.k].pc.SendingFirst?
      && !s.links[a.k].pc.Connecting?
    ensures
      var s' := Step(s, a.k, a.ok);
      a.k < |s'.links| && SameTraffic(s.links[a.k], s'.links[a.k])
  {
    hide OnReceiveStep, OnDisconnectStep;
    if InReceive(s.links[a.k].pc) {
      QuietReceive(s, a.k);
    } else {
      QuietDisconnect(s, a.k, a.ok);
    }
  }

  lemma QuietReceive(s: State, k: nat)
    requires k < |s.links| && InReceive(s.links[k].pc) && s.links[k].client < |s.clients| && !s.links[k].pc.Sending?
    ensures var s' := OnReceiveStep(s, k); k < |s'.links| && SameTraffic(s.links[k], s'.links[k])
  {
    hide Wrap32, Wrap64, Tick, SendTo, Target;
  }

  lemma QuietDisconnect(s: State, k: nat, ok: bool)
    requires Enabled(s, Work(k, ok)) && !InReceive(s.links[k].pc) && !s.links[k].pc.SendingFirst?
      && !s.links[k].pc.Connecting?
    ensures var s' := OnDisconnectStep(s, k, ok); k < |s'.links| && SameTraffic(s.links[k], s'.links[k])
  {
    hide Wrap32, Wrap64, Tick, SendTo, Target;
    match s.links[k].pc
    case Dropped =>
    case CountingDown =>
    case CountingFail =>
    case MarkingConnected =>
    case ReadingClock =>
    case StoringTick(_, _) =>
    case FreeingFirst =>
    case CountingConnect =>
    case CountingTotal =>
  }

  lemma SendingCarries(s: State, k: nat, a: Action)
    requires a.Work? && Enabled(s, a) && (s.links[a.k].pc.Sending? || s.links[a.k].pc.SendingFirst?)
    requires k < |s.links|
    ensures Carried(s, a, k, Step(s, a.k, a.ok))
  {
    SendingPuts(s, k, a);
    hide Step;
    var link, s' := s.links[k], Step(s, a.k, a.ok);
    if Sends(s, a, k) == [] {
      hide Enabled, Carried;
      NothingCarried(s, a, k, s');
    } else {
      var link' := s'.links[k];
      assert Line(link) + Sends(s, a, k) == (Line(link) + Sends(s, a, k))[0..];
      assert link.up ==> Line(link') == Line(link) + Sends(s, a, k);
    }
  }

  lemma SendingPuts(s: State, k: nat, a: Action)
    requires a.Work? && Enabled(s, a) && (s.links[a.k].pc.Sending? || s.links[a.k].pc.SendingFirst?)
    requires k < |s.links|
    ensures
      var s' := Step(s, a.k, a.ok);
      && |s'.links| == |s.links|
      && if Sends(s, a, k) == [] then SameTraffic(s.links[k], s'.links[k])
         else
           && Sends(s, a, k) == [s.links[a.k].pc.tick]
           && SameTraffic(Put(s.links[k], s.links[a.k].pc.tick), s'.links[k])
  {
    hide Wrap32, Wrap64, Tick;
  }

  lemma StepCarries(s: State, a: Action, k: nat)
    requires Enabled(s, a) && k < |Apply(s, a).links|
    ensures Carried(s, a, k, Apply(s, a))
  {
    hide Carried, Step;
    if a.Work? {
      if s.links[a.k].pc.Sending? || s.links[a.k].pc.SendingFirst? {
        SendingLinks(s, a);
        SendingCarries(s, k, a);
      } else {
        QuietWork(s, k, a);
      }
    } else {
      hide Apply;
      StillThere(s, a);
      if Acted(s, a) != k {
        OtherCarries(s, a, k);
      } else if a.Cut? || a.Drop? {
        EndingCarries(s, a, k);
      } else {
        TransportCarries(s, a, k);
      }
    }
  }

  lemma StillThere(s: State, a: Action)
    requires Enabled(s, a) && !a.Work?
    ensures |Apply(s, a).links| == |s.links|
  {
    hide Read, Left, Incomplete, Wrap32;
  }

  lemma SendingLinks(s: State, a: Action)
    requires a.Work? && Enabled(s, a) && (s.links[a.k].pc.Sending? || s.links[a.k].pc.SendingFirst?)
    ensures |Step(s, a.k, a.ok).links| == |s.links|
  {
    hide Wrap32, Wrap64, Tick;
  }

  // ---- Over runs ----

  /** A connection that is up, after so many packets sent, taken by the client, and taken and sent on by the server. */
  predicate Flows(first: Link, sent: seq<nat>, taken: nat, toServer: nat, fromServer: nat, link: Link) {
    && taken <= |Line(first)| + |sent|
    && Line(link) == (Line(first) + sent)[taken..]
    && |link.toServer| == |first.toServer| + |sent| - toServer
    && Busy(link) == Busy(first) + toServer - fromServer
  }

  /** One that is not: nothing is put in any more. */
  predicate DriesUp(first: Link, sent: seq<nat>, taken: nat, toServer: nat, fromServer: nat, link: Link) {
    && taken <= |first.toClient| && toServer <= |first.toServer|
    && link.toClient == first.toClient[taken..] && link.toServer == first.toServer[toServer..]
    && link.lost == first.lost + |sent| + fromServer
  }

  lemma FlowsOn(s: State, a: Action, k: nat, s': State, first: Link, sent: seq<nat>, taken: nat, toServer: nat,
                fromServer: nat)
    requires Carried(s, a, k, s') && s'.links[k].up && Flows(first, sent, taken, toServer, fromServer, AtFirst(s, k))
    ensures
      Flows(first, sent + Sends(s, a, k), taken + One(a.Receive? && a.k == k),
            toServer + One(a.ServerReceive? && a.k == k), fromServer + One(a.ServerSend? && a.k == k), s'.links[k])
  {
    hide Line, Sends, Busy, AtFirst;
    var all, more, d := Line(first) + sent, Sends(s, a, k), One(a.Receive? && a.k == k);
    assert all + more == Line(first) + (sent + more);
    assert (all[taken..] + more)[d..] == (all + more)[taken + d..];
  }

  lemma DriesOn(s: State, a: Action, k: nat, s': State, first: Link, sent: seq<nat>, taken: nat, toServer: nat,
                fromServer: nat)
    requires Carried(s, a, k, s') && k < |s.links| && !s.links[k].up
    requires DriesUp(first, sent, taken, toServer, fromServer, s.links[k])
    ensures
      DriesUp(first, sent + Sends(s, a, k), taken + One(a.Receive? && a.k == k),
              toServer + One(a.ServerReceive? && a.k == k), fromServer + One(a.ServerSend? && a.k == k), s'.links[k])
  {
    hide Line, Sends, Busy;
  }

  /** Connection k after a run from one state to another in which so much has happened on it. */
  ghost predicate LineAfter(s0: State, s: State, k: nat, sent: seq<nat>, taken: nat, toServer: nat, fromServer: nat,
                            ended: bool) {
    && |s0.links| <= |s.links|
    && (k >= |s.links| ==> sent == [] && taken == toServer == fromServer == 0 && !ended)
    && (AtFirst(s, k).up <==> AtFirst(s0, k).up && !ended)
    && (AtFirst(s, k).up ==> Flows(AtFirst(s0, k), sent, taken, toServer, fromServer, AtFirst(s, k)))
    && (!AtFirst(s0, k).up ==> DriesUp(AtFirst(s0, k), sent, taken, toServer, fromServer, AtFirst(s, k)))
  }

  lemma CountsGrow(states: seq<State>, actions: seq<Action>, k: nat)
    requires |states| == |actions| + 1 && actions != []
    ensures
      var n := |actions| - 1;
      var a := actions[n];
      && Sent(states, actions, k) == Sent(states[..n + 1], actions[..n], k) + Sends(states[n], a, k)
      && Receives(actions, k) == Receives(actions[..n], k) + One(a.Receive? && a.k == k)
      && ServerReceives(actions, k) == ServerReceives(actions[..n], k) + One(a.ServerReceive? && a.k == k)
      && ServerSends(actions, k) == ServerSends(actions[..n], k) + One(a.ServerSend? && a.k == k)
  {
    hide Sends;
  }

  lemma EndsGrow(actions: seq<Action>, k: nat)
    requires actions != []
    ensures
      var n := |actions| - 1;
      Ends(actions, k) <==> Ends(actions[..n], k) || ((actions[n].Cut? || actions[n].Drop?) && actions[n].k == k)
  {
    var n := |actions| - 1;
    var before := actions[..n];
    if Ends(before, k) {
      var i :| 0 <= i < |before| && (before[i].Cut? || before[i].Drop?) && before[i].k == k;
      assert actions[i] == before[i];
    }
    if Ends(actions, k) {
      var i :| 0 <= i < |actions| && (actions[i].Cut? || actions[i].Drop?) && actions[i].k == k;
      if i < n { assert before[i] == actions[i]; }
    }
  }

  /** Nothing happens on a connection that is not there. */
  lemma NotThere(s: State, a: Action, k: nat)
    requires Enabled(s, a) && k >= |s.links|
    ensures Sends(s, a, k) == []
    ensures a.Receive? || a.ServerReceive? || a.ServerSend? || a.Cut? || a.Drop? ==> a.k != k
  {
    hide Incomplete, Read;
  }

  lemma LineStep(s0: State, s: State, a: Action, k: nat, sent: seq<nat>, taken: nat, toServer: nat, fromServer: nat,
                 ended: bool)
    requires Enabled(s, a) && LineAfter(s0, s, k, sent, taken, toServer, fromServer, ended)
    ensures
      LineAfter(s0, Apply(s, a), k, sent + Sends(s, a, k), taken + One(a.Receive? && a.k == k),
                toServer + One(a.ServerReceive? && a.k == k), fromServer + One(a.ServerSend? && a.k == k),
                ended || ((a.Cut? || a.Drop?) && a.k == k))
  {
    var s' := Apply(s, a);
    LinksStay(s, a);
    if k >= |s.links| { NotThere(s, a, k); }
    if k < |s'.links| {
      StepCarries(s, a, k);
      hide Apply, Enabled;
      CarriedStep(s0, s, a, k, s', sent, taken, toServer, fromServer, ended);
    } else {
      hide Apply, Enabled, Sends, Flows;
      assert sent + [] == sent;
    }
  }

  lemma LinksStay(s: State, a: Action)
    requires Enabled(s, a)
    ensures |s.links| <= |Apply(s, a).links|
  {
    hide Step;
    if a.Work? {
      if s.links[a.k].pc.Sending? || s.links[a.k].pc.SendingFirst? {
        SendingLinks(s, a);
      } else {
        WeighStep(s, a.k, a.ok);
      }
    } else {
      StillThere(s, a);
    }
  }

  lemma CarriedStep(s0: State, s: State, a: Action, k: nat, s': State, sent: seq<nat>, taken: nat, toServer: nat,
                    fromServer: nat, ended: bool)
    requires Carried(s, a, k, s') && LineAfter(s0, s, k, sent, taken, toServer, fromServer, ended)
    requires k >= |s.links| ==> !((a.Cut? || a.Drop?) && a.k == k)
    ensures
      LineAfter(s0, s', k, sent + Sends(s, a, k), taken + One(a.Receive? && a.k == k),
                toServer + One(a.ServerReceive? && a.k == k), fromServer + One(a.ServerSend? && a.k == k),
                ended || ((a.Cut? || a.Drop?) && a.k == k))
  {
    LinkUp(s, a, k, s');
    if s'.links[k].up {
      FlowsOn(s, a, k, s', AtFirst(s0, k), sent, taken, toServer, fromServer);
    }
    if !AtFirst(s0, k).up {
      DriesOn(s, a, k, s', AtFirst(s0, k), sent, taken, toServer, fromServer);
    }
    hide Carried, Flows, DriesUp, Sends, One;
  }

  lemma LinkUp(s: State, a: Action, k: nat, s': State)
    requires Carried(s, a, k, s')
    ensures |s.links| <= |s'.links| && k < |s'.links|
    ensures s'.links[k].up <==> AtFirst(s, k).up && !((a.Cut? || a.Drop?) && a.k == k)
  {
    hide Line, Sends;
  }

  lemma LineAtFirst(s: State, k: nat)
    ensures LineAfter(s, s, k, [], 0, 0, 0, false)
  {
    assert Line(AtFirst(s, k)) == (Line(AtFirst(s, k)) + [])[0..];
  }

  lemma NeverEnds(k: nat)
    ensures !Ends([], k)
  {
  }

  lemma {:induction false} Lines(states: seq<State>, actions: seq<Action>, k: nat)
    requires Trace(states, actions)
    ensures
      LineAfter(states[0], states[|actions|], k, Sent(states, actions, k), Receives(actions, k),
                ServerReceives(actions, k), ServerSends(actions, k), Ends(actions, k))
    decreases |actions|
  {
    hide Apply, Enabled, Ends, LineAfter, Sends, AtFirst;
    if actions == [] {
      LineAtFirst(states[0], k);
      assert !Ends(actions, k) by { NeverEnds(k); }
    } else {
      var n := |actions| - 1;
      ShorterTrace(states, actions, n);
      Lines(states[..n + 1], actions[..n], k);
      CountsGrow(states, actions, k);
      EndsGrow(actions, k);
      assert Enabled(states[n], actions[n]) && states[n + 1] == Apply(states[n], actions[n]);
      hide Trace, Sent;
      LineStep(states[0], states[n], actions[n], k, Sent(states[..n + 1], actions[..n], k), Receives(actions[..n], k),
               ServerReceives(actions[..n], k), ServerSends(actions[..n], k), Ends(actions[..n], k));
    }
  }

  /** From any state, a connection is up exactly as long as neither end nor the network has ended it. While it is, what
      its client has sent on it comes back in the order in which it was sent, each packet once: what is under way is
      what has been sent, less as many as have come back, from the front; the server has so many of them as it has
      received and not sent on. */
  lemma UpLinkIsFifo(states: seq<State>, actions: seq<Action>, k: nat)
    requires Trace(states, actions) && k < |states[|actions|].links|
    ensures
      var first, link := AtFirst(states[0], k), states[|actions|].links[k];
      var sent := Sent(states, actions, k);
      && (link.up <==> first.up && !Ends(actions, k))
      && (link.up ==>
            && Receives(actions, k) <= |Line(first)| + |sent|
            && Line(link) == (Line(first) + sent)[Receives(actions, k)..]
            && |link.toServer| == |first.toServer| + |sent| - ServerReceives(actions, k)
            && Busy(link) == Busy(first) + ServerReceives(actions, k) - ServerSends(actions, k))
  {
    Lines(states, actions, k);
    hide Trace, Line, Ends, Sent;
  }

  /** From a state in which a connection is down, it stays so: what is under way still comes in, in order, and
      everything sent is lost. */
  lemma DownLinkDriesUp(states: seq<State>, actions: seq<Action>, k: nat)
    requires Trace(states, actions) && k < |states[0].links| && !states[0].links[k].up
    ensures k < |states[|actions|].links|
    ensures
      var first, link := states[0].links[k], states[|actions|].links[k];
      && !link.up
      && Receives(actions, k) <= |first.toClient| && link.toClient == first.toClient[Receives(actions, k)..]
      && ServerReceives(actions, k) <= |first.toServer|
      && link.toServer == first.toServer[ServerReceives(actions, k)..]
      && link.lost == first.lost + |Sent(states, actions, k)| + ServerSends(actions, k)
  {
    Lines(states, actions, k);
    hide Trace, Flows, Ends, Sent;
  }

  /** What the threads cannot put off: time passes, main reports and the network fails when they like; tails and the
      server go on; and a thread in recv may always find its connection closed. */
  lemma AnyTime(s: State, k: nat, ms: nat, key: PacketCodec.byte)
    ensures Enabled(s, Advance(ms)) && Enabled(s, ReportSend) && Enabled(s, ReportRecv)
    ensures s.counting > 0 ==> Enabled(s, CountSend)
    ensures s.freeing > 0 ==> Enabled(s, FreeTail)
    ensures s.serverFreeing > 0 ==> Enabled(s, ServerFree)
    ensures k < |s.links| ==> Enabled(s, Cut(k))
    ensures k < |s.links| && s.links[k].toServer != [] ==> Enabled(s, ServerReceive(k)) || Enabled(s, ServerSend(k))
    ensures k < |s.links| && s.links[k].client < |s.clients| && s.links[k].pc.Receiving? ==> Enabled(s, Drop(k, 0, key))
    ensures k < |s.links| && s.links[k].client < |s.clients| && !s.links[k].pc.Receiving? ==>
      s.links[k].pc.Exited? || (Enabled(s, Work(k, true)) && Enabled(s, Work(k, false)))
  {
  }

  /** Connect, in any state, up to where mbIsConnected is set: while the client is connected it fails and changes
      nothing; a failed attempt leaves a socket with no connection; a successful one leaves a connection with nothing
      on it, whose receive thread is at recv already. */
  lemma ConnectOutcome(s: State, k: nat, ok: bool)
    requires k < |s.links| && s.links[k].client < |s.clients| && s.links[k].pc.Connecting?
    ensures Enabled(s, Work(k, ok))
    ensures
      var c := s.links[k].client;
      var s' := Apply(s, Work(k, ok));
      if s.clients[c].connected then s' == s.(links := s.links[k := s.links[k].(pc := CountingFail)])
      else if !ok then
        s' == s.(links := s.links[k := s.links[k].(pc := CountingFail)],
                 clients := s.clients[c := s.clients[c].(sock := -1)])
      else
        s' == s.(links := s.links[k := s.links[k].(pc := MarkingConnected)] +
                   [Link(c, Receiving, true, [], Quiet, [], 0, 0)],
                 clients := s.clients[c := s.clients[c].(sock := |s.links|)])
  {
    hide Wrap32, Wrap64, Tick, SendTo, Target;
  }

  // ---- What main reports ----

  /** What has happened in a run: the time it took; the sends and the receives counted since main last took the count,
      with what it has shown; how often each other counter has been stepped; and how many packet references have been
      freed. */
  datatype Tally = Tally(elapsed: nat, sends: nat, sendsShown: nat, recvs: nat, recvsShown: nat, errors: nat, rtts: nat,
                         rttSum: nat, downs: nat, fails: nat, connects: nat, total: int, freed: nat)

  function AtStart(g: Counters): Tally { Tally(0, g.send, 0, g.recv, 0, 0, 0, 0, 0, 0, 0, 0, 0) }

  /** One more action. */
  function Counted(t: Tally, s: State, a: Action): Tally {
    match a
    case Advance(ms) => t.(elapsed := t.elapsed + ms)
    case CountSend => t.(sends := t.sends + 1)
    case ReportSend => t.(sends := 0, sendsShown := t.sendsShown + t.sends % 0x1_0000_0000)
    case ReportRecv => t.(recvs := 0, recvsShown := t.recvsShown + t.recvs % 0x1_0000_0000)
    case FreeTail => t.(freed := t.freed + 1)
    case ServerFree => t.(freed := t.freed + 1)
    case Work(k, _) =>
      if k >= |s.links| || s.links[k].client >= |s.clients| then t
      else
        (match s.links[k].pc
         case CountingError => t.(errors := t.errors + 1)
         case AddingRtt => t.(rttSum := t.rttSum + s.clients[s.links[k].client].lastRtt)
         case CountingRtt => t.(rtts := t.rtts + 1)
         case FreeingPacket => t.(freed := t.freed + 1)
         case CountingRecv => t.(recvs := t.recvs + 1)
         case Dropped => t.(total := t.total - 1)
         case CountingDown => t.(downs := t.downs + 1)
         case CountingFail => t.(fails := t.fails + 1)
         case FreeingFirst => t.(freed := t.freed + 1)
         case CountingConnect => t.(connects := t.connects + 1)
         case CountingTotal => t.(total := t.total + 1)
         case _ => t)
    case _ => t
  }

  function TallyOf(states: seq<State>, actions: seq<Action>): Tally
    requires |states| == |actions| + 1
  {
    if actions == [] then AtStart(states[0].g) else
    var n := |actions| - 1;
    Counted(TallyOf(states[..n + 1], actions[..n]), states[n], actions[n])
  }

  predicate InWidth(g: Counters) {
    && g.total < 0x1_0000_0000 && g.send < 0x1_0000_0000 && g.recv < 0x1_0000_0000
    && g.connectTotal < 0x1_0000_0000_0000_0000 && g.connectFail < 0x1_0000_0000_0000_0000
    && g.down < 0x1_0000_0000_0000_0000 && g.error < 0x1_0000_0000_0000_0000
    && g.rttSum < 0x1_0000_0000_0000_0000 && g.rttCount < 0x1_0000_0000_0000_0000
  }

  predicate Tallies(g: Counters, now: nat, t: Tally, s: State) {
    && s.now == now + t.elapsed
    && s.g.send == Wrap32(t.sends) && s.g.recv == Wrap32(t.recvs)
    && s.g.total == Wrap32(g.total + t.total)
    && s.g.connectTotal == Wrap64(g.connectTotal + t.connects) && s.g.connectFail == Wrap64(g.connectFail + t.fails)
    && s.g.down == Wrap64(g.down + t.downs) && s.g.error == Wrap64(g.error + t.errors)
    && s.g.rttSum == Wrap64(g.rttSum + t.rttSum) && s.g.rttCount == Wrap64(g.rttCount + t.rtts)
  }

  predicate Shows(s0: State, t: Tally, s: State) {
    && s.t.printedSend == s0.t.printedSend + t.sendsShown && s.t.printedRecv == s0.t.printedRecv + t.recvsShown
    && s.t.freed == s0.t.freed + t.freed
  }

  lemma ReceiveTallies(g: Counters, now: nat, t: Tally, s: State, k: nat, ok: bool)
    requires Tallies(g, now, t, s) && Enabled(s, Work(k, ok)) && InReceive(s.links[k].pc)
    ensures Tallies(g, now, Counted(t, s, Work(k, ok)), OnReceiveStep(s, k))
  {
    hide Wrap32, Wrap64, Put;
    Wrap64Add(g.error + t.errors, 1);
    Wrap64Add(g.rttCount + t.rtts, 1);
    Wrap32Add(t.recvs, 1);
    Wrap64Add(g.rttSum + t.rttSum, s.clients[s.links[k].client].lastRtt);
  }

  predicate Counting(pc: Pc) {
    pc.Dropped? || pc.CountingDown? || pc.CountingFail? || pc.CountingConnect? || pc.CountingTotal?
  }

  lemma DisconnectTallies(g: Counters, now: nat, t: Tally, s: State, k: nat, ok: bool)
    requires Tallies(g, now, t, s) && Enabled(s, Work(k, ok)) && Counting(s.links[k].pc)
    ensures Tallies(g, now, Counted(t, s, Work(k, ok)), OnDisconnectStep(s, k, ok))
  {
    hide Wrap32, Wrap64, SendTo, Target, Tick;
    Wrap32Add(g.total + t.total, 1);
    Wrap32Add(g.total + t.total, -1);
    Wrap64Add(g.connectTotal + t.connects, 1);
    Wrap64Add(g.connectFail + t.fails, 1);
    Wrap64Add(g.down + t.downs, 1);
  }

  lemma SilentTallies(g: Counters, now: nat, t: Tally, s: State, k: nat, ok: bool)
    requires Tallies(g, now, t, s) && Enabled(s, Work(k, ok)) && !Counting(s.links[k].pc) && !InReceive(s.links[k].pc)
    ensures Tallies(g, now, Counted(t, s, Work(k, ok)), OnDisconnectStep(s, k, ok))
  {
    CountsNothing(s, k, ok);
    SameNow(s, k, ok);
    hide OnDisconnectStep, Wrap32, Wrap64;
  }

  lemma SameNow(s: State, k: nat, ok: bool)
    requires Enabled(s, Work(k, ok)) && !InReceive(s.links[k].pc)
    ensures OnDisconnectStep(s, k, ok).now == s.now
  {
    hide Wrap32, Wrap64, Put, Target, Tick;
  }

  lemma ReportTallies(g: Counters, now: nat, t: Tally, s: State, a: Action)
    requires Tallies(g, now, t, s) && Enabled(s, a) && (a.CountSend? || a.ReportSend? || a.ReportRecv? || a.Advance?)
    ensures Tallies(g, now, Counted(t, s, a), Apply(s, a))
  {
    Wrap32Add(t.sends, 1);
    assert Wrap32(0) == 0;
    hide Wrap32, Wrap64;
  }

  lemma TransportTallies(g: Counters, now: nat, t: Tally, s: State, a: Action)
    requires Tallies(g, now, t, s) && Enabled(s, a)
    requires !a.Work? && !a.CountSend? && !a.ReportSend? && !a.ReportRecv? && !a.Advance?
    ensures Tallies(g, now, Counted(t, s, a), Apply(s, a))
  {
    TransportCountsNothing(s, a);
    TransportNow(s, a);
    NothingCounted(t, s, a);
    hide Apply, Wrap32, Wrap64, Counted, Enabled;
  }

  lemma NothingCounted(t: Tally, s: State, a: Action)
    requires !a.Work? && !a.CountSend? && !a.ReportSend? && !a.ReportRecv? && !a.Advance?
    ensures Counted(t, s, a) == t.(freed := Counted(t, s, a).freed)
  {
  }

  lemma TransportNow(s: State, a: Action)
    requires Enabled(s, a) && !a.Work? && !a.Advance?
    ensures Apply(s, a).now == s.now
  {
    hide Wrap32, Read, Left;
  }

  lemma TallyStep(g: Counters, now: nat, t: Tally, s: State, a: Action)
    requires Tallies(g, now, t, s) && Enabled(s, a)
    ensures Tallies(g, now, Counted(t, s, a), Apply(s, a))
  {
    hide OnReceiveStep, OnDisconnectStep, Tallies, Counted;
    if a.Work? {
      if InReceive(s.links[a.k].pc) {
        ReceiveTallies(g, now, t, s, a.k, a.ok);
      } else if Counting(s.links[a.k].pc) {
        DisconnectTallies(g, now, t, s, a.k, a.ok);
      } else {
        SilentTallies(g, now, t, s, a.k, a.ok);
      }
    } else {
      hide Apply;
      if a.CountSend? || a.ReportSend? || a.ReportRecv? || a.Advance? {
        ReportTallies(g, now, t, s, a);
      } else {
        TransportTallies(g, now, t, s, a);
      }
    }
  }

  lemma ShowsStep(s0: State, t: Tally, s: State, a: Action)
    requires Shows(s0, t, s) && s.g.send == Wrap32(t.sends) && s.g.recv == Wrap32(t.recvs) && Enabled(s, a)
    ensures Shows(s0, Counted(t, s, a), Apply(s, a))
  {
    if a.ReportSend? || a.ReportRecv? {
    } else {
      ShowsNothing(s, a);
      TallyFrees(t, s, a);
      hide Apply, Enabled, Counted, Frees;
    }
  }

  lemma ShowsNothing(s: State, a: Action)
    requires Enabled(s, a) && !a.ReportSend? && !a.ReportRecv?
    ensures Apply(s, a).t.printedSend == s.t.printedSend && Apply(s, a).t.printedRecv == s.t.printedRecv
    ensures Apply(s, a).t.freed == s.t.freed + if Frees(s, a) then 1 else 0
  {
    hide Step, Wrap32, Read, Left;
    if a.Work? { PrintsNothing(s, a.k, a.ok); }
  }

  predicate Frees(s: State, a: Action)
    requires Enabled(s, a)
  {
    || a.FreeTail? || a.ServerFree?
    || (a.Work? && (s.links[a.k].pc.FreeingPacket? || s.links[a.k].pc.FreeingFirst?))
  }

  lemma TallyFrees(t: Tally, s: State, a: Action)
    requires Enabled(s, a) && !a.ReportSend? && !a.ReportRecv?
    ensures Counted(t, s, a).freed == t.freed + if Frees(s, a) then 1 else 0
    ensures Counted(t, s, a).sendsShown == t.sendsShown && Counted(t, s, a).recvsShown == t.recvsShown
  {
    hide Incomplete, Read;
  }

  lemma PrintsNothing(s: State, k: nat, ok: bool)
    requires Enabled(s, Work(k, ok))
    ensures
      var t := Step(s, k, ok).t;
      && t.printedSend == s.t.printedSend && t.printedRecv == s.t.printedRecv
      && t.freed == s.t.freed + if Frees(s, Work(k, ok)) then 1 else 0
  {
    hide Wrap32, Wrap64, Put, Target, Tick;
  }

  lemma {:induction false} RunTallies(states: seq<State>, actions: seq<Action>)
    requires Trace(states, actions) && InWidth(states[0].g)
    ensures
      var t, s := TallyOf(states, actions), states[|actions|];
      Tallies(states[0].g, states[0].now, t, s) && Shows(states[0], t, s)
    decreases |actions|
  {
    hide Apply, Enabled, Counted;
    if actions == [] {
    } else {
      var n := |actions| - 1;
      ShorterTrace(states, actions, n);
      RunTallies(states[..n + 1], actions[..n]);
      var t := TallyOf(states[..n + 1], actions[..n]);
      hide InWidth;
      TallyStep(states[0].g, states[0].now, t, states[n], actions[n]);
      ShowsStep(states[0], t, states[n], actions[n]);
      hide Tallies, Shows;
    }
  }

  /** The clock and the counters are those of the tally: the two that main takes every second are what has been counted
      since it last took them, and it has shown what it took; the others have never been taken. */
  predicate CountersAre(s0: State, t: Tally, s: State) {
    && s.now == s0.now + t.elapsed
    && s.g.send == t.sends % 0x1_0000_0000 && s.t.printedSend == s0.t.printedSend + t.sendsShown
    && s.g.recv == t.recvs % 0x1_0000_0000 && s.t.printedRecv == s0.t.printedRecv + t.recvsShown
    && s.g.total == (s0.g.total + t.total) % 0x1_0000_0000
    && s.g.connectTotal == (s0.g.connectTotal + t.connects) % 0x1_0000_0000_0000_0000
    && s.g.connectFail == (s0.g.connectFail + t.fails) % 0x1_0000_0000_0000_0000
    && s.g.down == (s0.g.down + t.downs) % 0x1_0000_0000_0000_0000
    && s.g.error == (s0.g.error + t.errors) % 0x1_0000_0000_0000_0000
    && s.g.rttSum == (s0.g.rttSum + t.rttSum) % 0x1_0000_0000_0000_0000
    && s.g.rttCount == (s0.g.rttCount + t.rtts) % 0x1_0000_0000_0000_0000
    && s.t.freed == s0.t.freed + t.freed
  }

  lemma InNumbers(s0: State, t: Tally, s: State)
    requires Tallies(s0.g, s0.now, t, s) && Shows(s0, t, s)
    ensures CountersAre(s0, t, s)
  {
  }

  /** From any state, main's clock and counters are those of what has happened. */
  lemma CountersTally(states: seq<State>, actions: seq<Action>)
    requires Trace(states, actions) && InWidth(states[0].g)
    ensures CountersAre(states[0], TallyOf(states, actions), states[|actions|])
  {
    RunTallies(states, actions);
    hide Trace, TallyOf, InWidth, Tallies, Shows, CountersAre;
    InNumbers(states[0], TallyOf(states, actions), states[|actions|]);
  }
}
