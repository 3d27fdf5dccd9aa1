/** The echo test as a step relation: every client keeps one packet, holding the tick of its last
    send, going round through the server, and reconnects when its connection drops. Steps are the
    source's statements on shared data: EchoDummy::OnReceive and OnDisconnect with the parts of
    NetClient they run in, EchoServer::OnReceive, and the exchange of the counters in main's report. A
    packet is its tick, but for the bytes of one that a connection leaves behind in the client's receive
    buffer when it drops in the middle of it: what comes next is then read as PacketCodec and Framing say. */
module EchoModel {
  import PacketCodec
  import Framing

  const TWO_POW_32: int := 0x1_0000_0000
  const TWO_POW_64: int := 0x1_0000_0000_0000_0000

  function Wrap32(x: int): nat { x % TWO_POW_32 }
  function Wrap64(x: int): nat { x % TWO_POW_64 }

  /** timeGetTime() at true time t, in milliseconds. */
  function Tick(t: nat): nat { Wrap32(t) }

  /** Where the receive thread of a connection is. Up to `Sending`, in OnReceive; the part of
      OnReceive after SendPacket goes on as a tail of its own, so it may overlap what follows. From
      `Dropped` on, in recvThread's disconnect branch and OnDisconnect. */
  datatype Pc =
    | Receiving                   // in recv
    | Comparing(tick: nat)        // receiveTick read, about to compare it with mLastSendTick
    | CountingError
    | TakingRtt                   // about to set mLastRTT
    | AddingRtt                   // about to add mLastRTT to g_rttSum
    | CountingRtt
    | FreeingPacket
    | CountingRecv
    | TakingTick                  // about to Alloc and set mLastSendTick
    | WritingTick                 // about to copy mLastSendTick into the packet
    | Sending(tick: nat)
    | Dropped                     // recv failed, mbIsConnected cleared
    | CountingDown                // g_totalConnectedClientCount decremented, g_downCount not yet
    | Connecting
    | CountingFail
    | MarkingConnected            // connected, receive thread started, mbIsConnected not yet set
    | ReadingClock                // about to Alloc and read sendTick
    | StoringTick(tick: nat, at: nat)  // about to set mLastSendTick to the tick read at true time `at`
    | SendingFirst(tick: nat)
    | FreeingFirst
    | CountingConnect
    | CountingTotal               // g_connectTotalCount incremented, g_totalConnectedClientCount not yet
    | Exited

  /** The content handler of the session at the server. */
  datatype Server = Quiet | Echoing(tick: nat)

  /** A connection: its receive thread at the client, and the packets under way. A connection that is
      not `up` delivers nothing sent on it any more; `lost` counts the packets so dropped, and `swallowed` those that
      went into the client's receive buffer and were not read as a packet. */
  datatype Link = Link(client: nat, pc: Pc, up: bool, toServer: seq<nat>, server: Server, toClient: seq<nat>,
                       lost: nat, swallowed: nat)

  /** An EchoDummy. `sock` is the connection mSocket refers to, or -1. The fields from `sentAt` on are
      histories: the true time mLastSendTick was read, the time from which the RTTs are added up, their
      sum, and the connection whose thread handles the packet. */
  datatype Client = Client(lastSendTick: nat, lastRtt: nat, connected: bool, sock: int,
                           sentAt: nat, start: nat, rttTotal: nat, owner: int)

  /** The counters of GlobalVariables.h. */
  datatype Counters = Counters(total: nat, connectTotal: nat, connectFail: nat, down: nat, error: nat,
                               rttSum: nat, rttCount: nat, send: nat, recv: nat)

  /** Histories: the same events counted without wrap-around, the values main has printed, and the
      packet references taken and freed by the content handlers. */
  datatype Totals = Totals(total: int, connects: nat, fails: nat, downs: nat, errors: nat, rttSum: nat, rtts: nat,
                           sends: nat, recvs: nat, printedSend: nat, printedRecv: nat, taken: nat, freed: nat)

  /** `kept` are the bytes in a client's mRecvBuffer, if there are any. `counting` and `freeing` tails of
      OnReceive are before their g_echoSendCount increment and before their Free; `serverFreeing` server
      handlers are before theirs. */
  datatype State = State(now: nat, clients: seq<Client>, links: seq<Link>, kept: map<nat, seq<PacketCodec.byte>>,
                         counting: nat, freeing: nat, serverFreeing: nat, g: Counters, t: Totals)

  datatype Action =
    | Advance(ms: nat)
    | Receive(k: nat, key: PacketCodec.byte)  // a packet encoded under this key has come in
    | Drop(k: nat, cut: nat, key: PacketCodec.byte)  // `cut` bytes of a packet came in, then recv fails
    | Work(k: nat, ok: bool)      // any other step of the thread; `ok` is the network's answer to connect
    | CountSend                   // a tail increments g_echoSendCount
    | FreeTail
    | ServerReceive(k: nat)
    | ServerSend(k: nat)
    | ServerFree
    | Cut(k: nat)                 // the connection stops delivering
    | ReportSend                  // main exchanges g_echoSendCount with 0
    | ReportRecv

  /** The size of mRecvBuffer. */
  const RECV_BUFFER: nat := 8192

  const TICK_PACKET: nat := PacketCodec.HEADER_SIZE + 4

  /** What the receive loop makes of the bytes it has: OnReceive of a packet with a tick, waiting for more, or
      an assertion, a copy past the end of a packet buffer or a full receive buffer, after which nothing is
      promised. */
  datatype Reading = Delivers(tick: nat, rest: seq<PacketCodec.byte>) | Waits(bytes: seq<PacketCodec.byte>) | Stops

  function TickWire(tick: nat, key: PacketCodec.byte): (wire: seq<PacketCodec.byte>)
    ensures |wire| == TICK_PACKET
  {
    PacketCodec.Wire(PacketCodec.Bytes4(tick), key)
  }

  /** A packet with a tick comes in behind the bytes kept. The client checks no limit on a packet's length. Once
      the bytes of no packet have filled the buffer, nothing is said of what follows. */
  function Read(kept: seq<PacketCodec.byte>, tick: nat, key: PacketCodec.byte): Reading {
    var bytes := kept + TickWire(tick, key);
    match Framing.First(bytes, 0xFFFF)
    case TooShort => if |bytes| < RECV_BUFFER - 1 then Waits(bytes) else Stops
    case Bad => Stops
    case Overruns => Stops
    case Packet(payload, size) => if |payload| < 4 then Stops
      else Delivers(PacketCodec.Value4(payload[..4]), bytes[size..])
  }

  function Kept(s: State, c: nat): seq<PacketCodec.byte> { if c in s.kept then s.kept[c] else [] }

  predicate Incomplete(bytes: seq<PacketCodec.byte>) { Framing.First(bytes, 0xFFFF).TooShort?
                       && |bytes| < RECV_BUFFER - 1 }

  /** What connection k leaves behind if it drops when so many bytes of the next packet have come in. */
  function Left(s: State, k: nat, cut: nat, key: PacketCodec.byte): seq<PacketCodec.byte>
    requires k < |s.links| && s.links[k].toClient != [] && cut < TICK_PACKET
  {
    Kept(s, s.links[k].client) + TickWire(s.links[k].toClient[0], key)[..cut]
  }

  function SetKept(s: State, c: nat, bytes: seq<PacketCodec.byte>): State {
    s.(kept := if bytes == [] then s.kept - {c} else s.kept[c := bytes])
  }

  predicate Enabled(s: State, a: Action) {
    match a
    case Advance(_) => true
    case Receive(k, key) =>
      && k < |s.links| && s.links[k].pc.Receiving? && s.links[k].toClient != []
      && !Read(Kept(s, s.links[k].client), s.links[k].toClient[0], key).Stops?
    case Drop(k, cut, key) =>
      && k < |s.links| && s.links[k].pc.Receiving? && s.links[k].client < |s.clients|
      && (cut > 0 ==> s.links[k].toClient != [] && cut < TICK_PACKET && Incomplete(Left(s, k, cut, key)))
    case Work(k, _) => k < |s.links| && !s.links[k].pc.Receiving? && !s.links[k].pc.Exited?
      && s.links[k].client < |s.clients|
    case CountSend => s.counting > 0
    case FreeTail => s.freeing > 0
    case ServerReceive(k) => k < |s.links| && s.links[k].server.Quiet? && s.links[k].toServer != []
    case ServerSend(k) => k < |s.links| && s.links[k].server.Echoing?
    case ServerFree => s.serverFreeing > 0
    case Cut(k) => k < |s.links|
    case ReportSend => true
    case ReportRecv => true
  }

  function SetLink(s: State, k: nat, link: Link): State
    requires k < |s.links|
  {
    s.(links := s.links[k := link])
  }

  function Goto(s: State, k: nat, pc: Pc): State
    requires k < |s.links|
  {
    SetLink(s, k, s.links[k].(pc := pc))
  }

  function SetClient(s: State, k: nat, c: Client): State
    requires k < |s.links| && s.links[k].client < |s.clients|
  {
    s.(clients := s.clients[s.links[k].client := c])
  }

  /** The connection that a send reaches, or -1: NetClient::SendPacket does nothing while mbIsConnected
      is false. */
  function Target(s: State, c: Client): (target: int)
    ensures -1 <= target < |s.links|
  {
    if c.connected && 0 <= c.sock < |s.links| then c.sock else -1
  }

  /** A packet handed to the socket. */
  function Put(link: Link, tick: nat): Link {
    if link.up then link.(toServer := link.toServer + [tick]) else link.(lost := link.lost + 1)
  }

  function SendTo(s: State, target: int, tick: nat): State
    requires -1 <= target < |s.links|
  {
    if target == -1 then s else SetLink(s, target, Put(s.links[target], tick))
  }

  function Apply(s: State, a: Action): State
    requires Enabled(s, a)
  {
    match a
    case Advance(ms) => s.(now := s.now + ms)
    case Receive(k, key) =>
      var link := s.links[k];
      (match Read(Kept(s, link.client), link.toClient[0], key)
       case Delivers(tick, rest) =>
         SetKept(SetLink(s, k, link.(pc := Comparing(tick), toClient := link.toClient[1..])), link.client, rest)
           .(t := s.t.(taken := s.t.taken + 1))
       case Waits(bytes) =>
         SetKept(SetLink(s, k, link.(toClient := link.toClient[1..], swallowed := link.swallowed + 1)), link.client,
           bytes)
       case Stops => s)
    case Drop(k, cut, key) =>
      var link := s.links[k];
      var s' := SetClient(SetLink(s, k, link.(pc := Dropped, up := false)), k,
        s.clients[link.client].(connected := false));
      if cut == 0 then s' else SetKept(s', link.client, Left(s, k, cut, key))
    case Work(k, ok) => Step(s, k, ok)
    case CountSend =>
      s.(counting := s.counting - 1, freeing := s.freeing + 1,
         g := s.g.(send := Wrap32(s.g.send + 1)), t := s.t.(sends := s.t.sends + 1))
    case FreeTail => s.(freeing := s.freeing - 1, t := s.t.(freed := s.t.freed + 1))
    case ServerReceive(k) =>
      var link := s.links[k];
      SetLink(s, k, link.(server := Echoing(link.toServer[0]), toServer := link.toServer[1..]))
        .(t := s.t.(taken := s.t.taken + 1))
    case ServerSend(k) =>
      var link := s.links[k];
      var link' := link.(server := Quiet);
      SetLink(s, k, if link.up then link'.(toClient := link.toClient + [link.server.tick])
        else link'.(lost := link.lost + 1))
        .(serverFreeing := s.serverFreeing + 1)
    case ServerFree => s.(serverFreeing := s.serverFreeing - 1, t := s.t.(freed := s.t.freed + 1))
    case Cut(k) => SetLink(s, k, s.links[k].(up := false))
    case ReportSend => s.(g := s.g.(send := 0), t := s.t.(printedSend := s.t.printedSend + s.g.send))
    case ReportRecv => s.(g := s.g.(recv := 0), t := s.t.(printedRecv := s.t.printedRecv + s.g.recv))
  }

  /** The connection whose thread the step moves, or that the network or the server changes. */
  function Acted(s: State, a: Action): nat {
    match a
    case Receive(k, _) => k
    case Drop(k, _, _) => k
    case Work(k, _) => k
    case ServerReceive(k) => k
    case ServerSend(k) => k
    case Cut(k) => k
    case _ => |s.links|
  }

  predicate InReceive(pc: Pc) {
    pc.Comparing? || pc.CountingError? || pc.TakingRtt? || pc.AddingRtt? || pc.CountingRtt? || pc.FreeingPacket?
    || pc.CountingRecv? || pc.TakingTick? || pc.WritingTick? || pc.Sending?
  }

  /** One statement of the receive thread of connection k. */
  function Step(s: State, k: nat, ok: bool): State
    requires Enabled(s, Work(k, ok))
  {
    if InReceive(s.links[k].pc) then OnReceiveStep(s, k) else OnDisconnectStep(s, k, ok)
  }

  /** One statement of OnReceive. */
  function OnReceiveStep(s: State, k: nat): State
    requires k < |s.links| && InReceive(s.links[k].pc) && s.links[k].client < |s.clients|
  {
    var c := s.clients[s.links[k].client];
    match s.links[k].pc
    case Comparing(tick) => Goto(s, k, if c.lastSendTick != tick then CountingError else TakingRtt)
    case CountingError =>
      Goto(s, k, FreeingPacket).(g := s.g.(error := Wrap64(s.g.error + 1)), t := s.t.(errors := s.t.errors + 1))
    case TakingRtt => SetClient(Goto(s, k, AddingRtt), k, c.(lastRtt := Wrap32(Tick(s.now) - c.lastSendTick)))
    case AddingRtt =>
      SetClient(Goto(s, k, CountingRtt), k, c.(rttTotal := c.rttTotal + c.lastRtt))
        .(g := s.g.(rttSum := Wrap64(s.g.rttSum + c.lastRtt)), t := s.t.(rttSum := s.t.rttSum + c.lastRtt))
    case CountingRtt =>
      Goto(s, k, FreeingPacket).(g := s.g.(rttCount := Wrap64(s.g.rttCount + 1)), t := s.t.(rtts := s.t.rtts + 1))
    case FreeingPacket => Goto(s, k, CountingRecv).(t := s.t.(freed := s.t.freed + 1))
    case CountingRecv =>
      Goto(s, k, TakingTick).(g := s.g.(recv := Wrap32(s.g.recv + 1)), t := s.t.(recvs := s.t.recvs + 1))
    case TakingTick =>
      SetClient(Goto(s, k, WritingTick), k, c.(lastSendTick := Tick(s.now), sentAt := s.now))
        .(t := s.t.(taken := s.t.taken + 1))
    case WritingTick => Goto(s, k, Sending(c.lastSendTick))
    case Sending(tick) => SendTo(Goto(s, k, Receiving), Target(s, c), tick).(counting := s.counting + 1)
  }

  /** One statement of OnDisconnect, and of the Connect it calls. */
  function OnDisconnectStep(s: State, k: nat, ok: bool): State
    requires Enabled(s, Work(k, ok)) && !InReceive(s.links[k].pc)
  {
    var c := s.clients[s.links[k].client];
    match s.links[k].pc
    case Dropped =>
      Goto(s, k, CountingDown).(g := s.g.(total := Wrap32(s.g.total - 1)), t := s.t.(total := s.t.total - 1))
    case CountingDown =>
      Goto(s, k, Connecting).(g := s.g.(down := Wrap64(s.g.down + 1)), t := s.t.(downs := s.t.downs + 1))
    case Connecting =>
      if c.connected then Goto(s, k, CountingFail)
      else if !ok then SetClient(Goto(s, k, CountingFail), k, c.(sock := -1))
      else
        var s' := SetClient(Goto(s, k, MarkingConnected), k, c.(sock := |s.links|));
        s'.(links := s'.links + [Link(s.links[k].client, Receiving, true, [], Quiet, [], 0, 0)])
    case CountingFail =>
      Goto(s, k, Connecting).(g := s.g.(connectFail := Wrap64(s.g.connectFail + 1)), t := s.t.(fails := s.t.fails + 1))
    case MarkingConnected => SetClient(Goto(s, k, ReadingClock), k, c.(connected := true))
    case ReadingClock => Goto(s, k, StoringTick(Tick(s.now), s.now)).(t := s.t.(taken := s.t.taken + 1))
    case StoringTick(tick, at) => SetClient(Goto(s, k, SendingFirst(tick)), k, c.(lastSendTick := tick, sentAt := at))
    case SendingFirst(tick) =>
      SetClient(SendTo(Goto(s, k, FreeingFirst), Target(s, c), tick), k, c.(owner := c.sock))
    case FreeingFirst => Goto(s, k, CountingConnect).(t := s.t.(freed := s.t.freed + 1))
    case CountingConnect =>
      Goto(s, k, CountingTotal).(g := s.g.(connectTotal := Wrap64(s.g.connectTotal + 1)),
        t := s.t.(connects := s.t.connects + 1))
    case CountingTotal =>
      Goto(s, k, Exited).(g := s.g.(total := Wrap32(s.g.total + 1)), t := s.t.(total := s.t.total + 1))
  }

  /** A connection is still waiting for its first packet while the thread that opened it is here. */
  predicate Opening(pc: Pc) {
    pc.MarkingConnected? || pc.ReadingClock? || pc.StoringTick? || pc.SendingFirst?
  }

  // ---- One packet per client ----

  /** Packets of a connection that are between the client's sends and its receives. */
  function Tokens(link: Link): nat {
    |link.toServer| + (if link.server.Echoing? then 1 else 0) + |link.toClient|
  }

  /** The packet is with the thread: received and not yet sent on. */
  function InHand(pc: Pc): nat { if InReceive(pc) then 1 else 0 }

  predicate Carries(link: Link, tick: nat) {
    && (forall i :: 0 <= i < |link.toServer| ==> link.toServer[i] == tick)
    && (link.server.Echoing? ==> link.server.tick == tick)
    && (forall i :: 0 <= i < |link.toClient| ==> link.toClient[i] == tick)
  }

  /** A connection on which nothing has been sent. */
  predicate Fresh(link: Link) {
    link.pc.Receiving? && link.toServer == [] && link.server.Quiet? && link.toClient == [] && link.lost == 0
      && link.swallowed == 0
  }

  predicate Disconnecting(pc: Pc) {
    pc.Dropped? || pc.CountingDown? || pc.Connecting? || pc.CountingFail?
  }

  /** The thread's part is done: its client's packet is with a later connection. */
  predicate Retired(pc: Pc) {
    pc.FreeingFirst? || pc.CountingConnect? || pc.CountingTotal? || pc.Exited?
  }

  /** Exactly one packet, counting one lost with a dead connection and one swallowed by the receive buffer. */
  predicate TokenOk(link: Link) {
    Tokens(link) + InHand(link.pc) + link.lost + link.swallowed == 1 && (link.up ==> link.lost == 0)
  }

  /** It carries the tick the client last recorded. */
  predicate TicksOk(cl: Client, link: Link) {
    && Carries(link, cl.lastSendTick)
    && !link.pc.CountingError?
    && (link.pc.Comparing? || link.pc.Sending? ==> link.pc.tick == cl.lastSendTick)
  }

  /** The recorded tick is that of `sentAt`; the RTTs added so far were measured before the interval
      now running. */
  predicate RttOk(now: nat, cl: Client, pc: Pc) {
    && cl.start <= cl.sentAt <= now
    && cl.lastSendTick == Tick(cl.sentAt)
    && match pc
       case AddingRtt => cl.rttTotal + cl.lastRtt <= now - cl.start
       case CountingRtt => cl.rttTotal <= now - cl.start
       case FreeingPacket => cl.rttTotal <= now - cl.start
       case CountingRecv => cl.rttTotal <= now - cl.start
       case TakingTick => cl.rttTotal <= now - cl.start
       case StoringTick(tick, at) => cl.rttTotal <= cl.sentAt - cl.start && cl.sentAt <= at <= now && tick == Tick(at)
       case _ => cl.rttTotal <= cl.sentAt - cl.start
  }

  predicate OwnerOk(now: nat, cl: Client, c: nat, links: seq<Link>, link: Link) {
    && link.client == c && RttOk(now, cl, link.pc) && !Retired(link.pc)
    && (link.pc.Receiving? || InReceive(link.pc) ==> cl.sock == cl.owner && cl.connected && TokenOk(link))
    && (Disconnecting(link.pc) ==> !cl.connected)
    && (Opening(link.pc) ==>
          && cl.sock != cl.owner && 0 <= cl.sock < |links| && links[cl.sock].client == c && Fresh(links[cl.sock])
          && (!link.pc.MarkingConnected? ==> cl.connected)
          && (link.pc.SendingFirst? ==> link.pc.tick == cl.lastSendTick))
  }

  /** A connection of the client other than its owner. */
  predicate OtherOk(cl: Client, links: seq<Link>, i: nat)
    requires i < |links| && 0 <= cl.owner < |links|
  {
    Retired(links[i].pc) || (Opening(links[cl.owner].pc) && i == cl.sock)
  }

  ghost predicate ClientInv(now: nat, cl: Client, c: nat, links: seq<Link>) {
    && -1 <= cl.owner < |links|
    && (cl.owner == -1 ==> !cl.connected && forall i :: 0 <= i < |links| ==> links[i].client != c)
    && (cl.owner >= 0 ==>
          && OwnerOk(now, cl, c, links, links[cl.owner])
          && forall i :: 0 <= i < |links| && i != cl.owner && links[i].client == c ==> OtherOk(cl, links, i))
    && cl.rttTotal <= now - cl.start && cl.start <= now
  }

  /** The packet of a client that receives or handles it carries the recorded tick. */
  predicate Ticked(cl: Client, links: seq<Link>) {
    0 <= cl.owner < |links| && (links[cl.owner].pc.Receiving? || InReceive(links[cl.owner].pc)) ==>
      TicksOk(cl, links[cl.owner])
  }

  /** Where runs start: counters at any values, histories at zero, each client with its one packet, wherever
      that is, or with none if it never connected; and no bytes left behind. */
  ghost predicate IsStart(s: State) {
    && s.kept == map[]
    && s.t == Totals(0, 0, 0, 0, 0, 0, 0, 0, 0, 0, 0, 0, 0)
    && s.g.total < TWO_POW_32 && s.g.send < TWO_POW_32 && s.g.recv < TWO_POW_32
    && s.g.connectTotal < TWO_POW_64 && s.g.connectFail < TWO_POW_64 && s.g.down < TWO_POW_64 && s.g.error < TWO_POW_64
    && s.g.rttSum < TWO_POW_64 && s.g.rttCount < TWO_POW_64
    && (forall c :: 0 <= c < |s.clients| ==>
          && s.clients[c].rttTotal == 0 && ClientInv(s.now, s.clients[c], c, s.links) && Ticked(s.clients[c], s.links))
    && WellFormed(s) && forall k :: 0 <= k < |s.links| ==> s.links[k].swallowed == 0
  }

  predicate SockOk(sock: int, c: nat, links: seq<Link>) { -1 <= sock < |links|
                   && (sock >= 0 ==> links[sock].client == c) }

  /** Connections are those of clients, and a client's mSocket refers to one of its own. */
  ghost predicate WellFormed(s: State) {
    && (forall k :: 0 <= k < |s.links| ==> s.links[k].client < |s.clients|)
    && forall c :: 0 <= c < |s.clients| ==> SockOk(s.clients[c].sock, c, s.links)
  }

  /** No thread of the connection's client is between Connect and its SendPacket. */
  ghost predicate NoneOpening(s: State, k: nat)
    requires k < |s.links|
  {
    forall j :: 0 <= j < |s.links| && s.links[j].client == s.links[k].client ==> !Opening(s.links[j].pc)
  }

  /** The nine bytes read when those kept are completed by the code and the length of the next packet. */
  function Misread(kept: seq<PacketCodec.byte>): (bytes: seq<PacketCodec.byte>)
    requires 6 <= |kept| < TICK_PACKET
    ensures |bytes| == TICK_PACKET
  {
    kept + [PacketCodec.NETWORK_HEADER_CODE, 4, 0][..TICK_PACKET - |kept|]
  }

  /** The bytes, or those with the code of the next packet behind them, claim a payload longer than any packet. */
  predicate Swallows(bytes: seq<PacketCodec.byte>) {
    && bytes != [] && bytes[0] == PacketCodec.NETWORK_HEADER_CODE
    && (|bytes| <= 2 || PacketCodec.Value2(bytes[1], bytes[2]) > PacketCodec.DEFAULT_SIZE)
  }

  /** The bytes are most of a packet with a tick, and what completes them fails the check. */
  predicate Jams(bytes: seq<PacketCodec.byte>) {
    && 6 <= |bytes| < TICK_PACKET && bytes[..3] == [PacketCodec.NETWORK_HEADER_CODE, 4, 0]
    && PacketCodec.Unwire(Misread(bytes)).Damaged?
  }

  /** With these bytes in its buffer a client is handed no packet any more. */
  predicate Deafens(bytes: seq<PacketCodec.byte>) { Swallows(bytes) || Jams(bytes) }

  /** No connection drops before its first packet has been sent. All other steps are patient. */
  ghost predicate Patient(s: State, a: Action) { Enabled(s, a) && (a.Drop? ==> NoneOpening(s, a.k)) }

  /** Nor does one drop in the middle of a packet unless what it leaves behind deafens the client. All other
      steps are tame. */
  ghost predicate Tame(s: State, a: Action) {
    Patient(s, a) && (a.Drop? && a.cut > 0 ==> Deafens(Left(s, a.k, a.cut, a.key)))
  }

  ghost predicate AnyStep(s: State, s': State) { exists a :: Enabled(s, a) && s' == Apply(s, a) }

  ghost predicate PatientStep(s: State, s': State) { exists a :: Patient(s, a) && s' == Apply(s, a) }

  ghost predicate TameStep(s: State, s': State) { exists a :: Tame(s, a) && s' == Apply(s, a) }

  /** Finite runs from start states. */
  ghost predicate Run(states: seq<State>) {
    && states != [] && IsStart(states[0])
    && forall i {:trigger states[i]} :: 0 < i < |states| ==> AnyStep(states[i - 1], states[i])
  }

  ghost predicate PatientRun(states: seq<State>) {
    && states != [] && IsStart(states[0])
    && forall i {:trigger states[i]} :: 0 < i < |states| ==> PatientStep(states[i - 1], states[i])
  }

  ghost predicate TameRun(states: seq<State>) {
    && states != [] && IsStart(states[0])
    && forall i {:trigger states[i]} :: 0 < i < |states| ==> TameStep(states[i - 1], states[i])
  }
}
