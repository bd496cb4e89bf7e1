/**
 The three-party protocol that builds a connection between two peers (src/build_connection_to_peer.rs,
 src/incoming_stream.rs): the initiator's state machine, the relay in the middle, and the remote.

 The parties run interleaved in any order. All messages are frames on byte streams that arrive in chunks
 of any size, and every hop may break at any time and lose the bytes still on it. A run is a sequence of
 events; an event that is not possible in the current state changes nothing.
 */
module BuildProtocol {
  import opened Common
  import opened Framing
  import opened Transport
  import opened ProtocolReader
  import opened RelayLine
  import opened Messages
  import opened Streams

  // ---------- The parties ----------

  /**
   Who takes part; the sides on which initiator and remote are connected to the relay, and the initiator's
   side of a direct connection; the addresses the relay sees for both peers; and the message codecs.
   */
  datatype Setup = Setup(
    initiator: PeerId, relay: PeerId, remote: PeerId,
    near: Side, far: Side, direct: Side,
    seenInitiator: Address, seenRemote: Address,
    hello: Codec<StreamHello>, build: Codec<BuildMessage>)
  {
    /**
     The codecs are faithful, and the messages of fixed content that are sent for these peers and addresses
     fit into a frame. A list of addresses need not fit.
     */
    ghost predicate Valid() {
      && Faithful(hello) && Faithful(build)
      && |hello.encode(ProxyBuildConnectionToPeer(remote))| <= MAX_FRAME_LENGTH
      && |hello.encode(StreamHello.BuildConnectionToPeer(initiator))| <= MAX_FRAME_LENGTH
      && |build.encode(InternetAddressInformation(seenInitiator))| <= MAX_FRAME_LENGTH
      && |build.encode(InternetAddressInformation(seenRemote))| <= MAX_FRAME_LENGTH
      && |build.encode(ProxyConnection)| <= MAX_FRAME_LENGTH
    }

    /** The handle each end has for its connection to the relay. */
    function InitiatorHandle(): Handle { NewHandle(relay, initiator, near) }
    function RemoteHandle(): Handle { NewHandle(relay, remote, far) }
  }

  datatype Failure = OpenFailed | StreamClosed | IllegalMessage | Undecodable | SendFailed

  datatype Initiator =
    | WaitingForProxyStream
    | WaitingForInternetAddressInformation
    | WaitingForExchangeAddressInformation
    | WaitingForConnection(candidates: seq<Address>)
    | WaitingForStream(connected: PeerId)
    | ProxyStream
    | ConnectionBuilt(end: StreamEnd)
    | PeerToPeerError(why: Failure)

  datatype Relaying =
    | AwaitingHello
    | Opening(target: PeerId, hello: StreamHello)
    | Splicing
    | Gone

  datatype Remote =
    | Absent                                   // the relay has not opened a stream yet
    | Incoming                                 // `IncomingStream` waits for the hello
    | Building(peer: PeerId, internetAddr: Option<Address>, poked: seq<Address>)
    | Passed(end: StreamEnd)                   // the control stream went to the context
    | Finished
    | Panicked                                 // "Internet address should already be set!"
    | RemoteError

  /** `im` carries initiator to remote, `mi` remote to initiator; `passes` counts handovers. */
  datatype State = State(init: Initiator, relay: Relaying, remote: Remote, im: Line, mi: Line, passes: nat)

  const START := State(WaitingForProxyStream, AwaitingHello, Absent, IDLE_LINE, IDLE_LINE, 0)

  /** The last entry of an address list is the internet address that its sender added. */
  predicate EndsWith(addrs: seq<Address>, a: Address) { addrs != [] && addrs[|addrs| - 1] == a }

  /** The address list that a side sends fits into a frame. */
  predicate Fits(c: Setup, interfaces: seq<Address>, seen: Address) {
    |c.build.encode(ExchangeAddressInformation(interfaces + [seen]))| <= MAX_FRAME_LENGTH
  }

  // ---------- Decoding messages ----------

  datatype Got<+M> = Nothing | Message(msg: M) | Garbled

  function DecodeAs<M>(codec: Codec<M>, out: Outcome): Got<M> {
    match out
    case NeedMore => Nothing
    case Oversized => Garbled
    case Payload(bytes) =>
      var m := codec.decode(bytes);
      if m.Some? then Message(m.value) else Garbled
  }

  /** One poll of a protocol stream that has its bytes buffered. */
  function TakeAs<M>(codec: Codec<M>, l: Line): (Line, Got<M>) {
    var (l', out) := TakeDown(l);
    (l', DecodeAs(codec, out))
  }

  /** The reader's hop has ended: it is closed and nothing is left to read. */
  predicate AtEnd(l: Line) { l.downClosed && l.down.io.Undelivered() == [] }

  // ---------- The initiator ----------

  /** The machine ends with an error and drops the proxy stream. */
  function InitFails(s: State, why: Failure): State {
    s.(init := PeerToPeerError(why), im := CloseUp(s.im))
  }

  function InitOpens(c: Setup, s: State): State {
    var payload := c.hello.encode(ProxyBuildConnectionToPeer(c.remote));
    if !s.init.WaitingForProxyStream? then s
    else if |payload| > MAX_FRAME_LENGTH then InitFails(s, SendFailed)
    else s.(init := WaitingForInternetAddressInformation,
            im := if s.im.upClosed then s.im else s.im.(up := Append(s.im.up, Frame(payload))))
  }

  function InitPollsInternetAddress(c: Setup, s: State, interfaces: seq<Address>): State {
    if !s.init.WaitingForInternetAddressInformation? then s else
    var (mi, got) := TakeAs(c.build, s.mi);
    var s1 := s.(mi := mi);
    match got
    case Nothing => s1
    case Garbled => InitFails(s1, Undecodable)
    case Message(m) =>
      if !m.InternetAddressInformation? then InitFails(s1, IllegalMessage) else
      var payload := c.build.encode(ExchangeAddressInformation(interfaces + [m.addr]));
      if |payload| > MAX_FRAME_LENGTH then InitFails(s1, SendFailed)
      else s1.(init := WaitingForExchangeAddressInformation, im := Send(s1.im, payload))
  }

  function InitPollsExchange(c: Setup, s: State): State {
    if !s.init.WaitingForExchangeAddressInformation? then s else
    var (mi, got) := TakeAs(c.build, s.mi);
    var s1 := s.(mi := mi);
    match got
    case Nothing => s1
    case Garbled => InitFails(s1, Undecodable)
    case Message(m) =>
      if !m.ExchangeAddressInformation? then InitFails(s1, IllegalMessage)
      else s1.(init := WaitingForConnection(m.addrs))
  }

  predicate InitListens(init: Initiator) {
    init.WaitingForInternetAddressInformation? || init.WaitingForExchangeAddressInformation?
  }

  /** Sends `ProxyConnection` and turns the control stream into the result. */
  function InitProxies(c: Setup, s: State): State {
    var payload := c.build.encode(ProxyConnection);
    if !s.init.ProxyStream? || |payload| > MAX_FRAME_LENGTH then s
    else s.(init := ConnectionBuilt(NewEnd(c.remote, c.InitiatorHandle(), true)),
            im := Send(s.im, payload), mi := SwitchDown(s.mi))
  }

  /** A direct connection to `peer` delivered a stream; the proxy stream is dropped. */
  function InitBuildsDirect(c: Setup, s: State): State {
    if !s.init.WaitingForStream? then s else
    var h := NewHandle(s.init.connected, c.initiator, c.direct);
    s.(init := ConnectionBuilt(OpenedEnd(h, StreamHello.User(c.initiator))), im := CloseUp(s.im))
  }

  /** The initiator's user holds the control stream as its proxied stream. */
  predicate InitProxied(s: State) { s.init.ConnectionBuilt? && s.init.end.proxy }

  // ---------- The relay ----------

  /** Both streams are dropped; what is on the wire may still arrive. */
  function RelayEnds(s: State): State {
    s.(relay := Gone, im := CloseDown(s.im), mi := CloseDown(s.mi))
  }

  function RelayPollsHello(c: Setup, s: State): State {
    if !s.relay.AwaitingHello? then s else
    var (up, out) := TakeFrame(s.im.up);
    match DecodeAs(c.hello, out)
    case Nothing => s.(im := s.im.(up := up))
    case Garbled => RelayEnds(s)
    case Message(hello) =>
      var purpose := PurposeOf(hello, c.initiator);
      if purpose.Relay? && purpose.building
      then s.(relay := Opening(purpose.target, purpose.hello), im := s.im.(up := IntoTransport(up)))
      else RelayEnds(s)
  }

  /** The stream to the remote is open: hello, both internet addresses, then splicing. */
  function RelayOpens(c: Setup, s: State): State {
    if !s.relay.Opening? then s else
    var hello := c.hello.encode(s.relay.hello);
    var toRemote := c.build.encode(InternetAddressInformation(c.seenRemote));
    var toInitiator := c.build.encode(InternetAddressInformation(c.seenInitiator));
    if !Sendable([hello, toRemote]) || !Sendable([toInitiator]) then RelayEnds(s)
    else s.(relay := Splicing, remote := Incoming,
            im := Inject(s.im, [hello, toRemote]), mi := Inject(s.mi, [toInitiator]))
  }

  // ---------- The remote ----------

  function RemotePollsHello(c: Setup, s: State): State {
    if !s.remote.Incoming? then s else
    var (im, got) := TakeAs(c.hello, s.im);
    match got
    case Nothing => s.(im := im)
    case Garbled => s.(remote := RemoteError, im := im, mi := CloseUp(s.mi))
    case Message(hello) =>
      var purpose := PurposeOf(hello, c.relay);
      if purpose.BuildRemote?
      then s.(remote := Building(purpose.peer, None, []), im := SwitchDown(im))
      else s.(remote := RemoteError, im := im, mi := CloseUp(s.mi))
  }

  /** What the remote builder does with one message; `Panicked` is the failing `expect`. */
  datatype Reaction =
    | Continue(internetAddr: Option<Address>, poked: seq<Address>, reply: Option<BuildMessage>)
    | HandOver
    | Panic

  function React(internetAddr: Option<Address>, poked: seq<Address>, interfaces: seq<Address>, m: BuildMessage): Reaction {
    match m
    case InternetAddressInformation(addr) => Continue(Some(addr), poked, None)
    case ExchangeAddressInformation(addrs) =>
      if internetAddr.None? then Panic
      else Continue(internetAddr, poked + addrs, Some(ExchangeAddressInformation(interfaces + [internetAddr.value])))
    case ProxyConnection => HandOver
  }

  /** One round of the loop in `BuildConnectionToPeerRemote::poll`. */
  function RemotePolls(c: Setup, s: State, interfaces: seq<Address>): State {
    if !s.remote.Building? then s else
    var (im, got) := TakeAs(c.build, s.im);
    var s1 := s.(im := im);
    match got
    case Nothing => s1
    case Garbled => s1.(remote := RemoteError, mi := CloseUp(s.mi))
    case Message(m) =>
      match React(s.remote.internetAddr, s.remote.poked, interfaces, m)
      case Panic => s1.(remote := Panicked)
      case HandOver =>
        s1.(remote := Passed(NewEnd(s.remote.peer, c.RemoteHandle(), true)),
            im := SwitchDown(im), passes := s.passes + 1)
      case Continue(addr, poked, reply) =>
        if reply.None? then s1.(remote := Building(s.remote.peer, addr, poked)) else
        var payload := c.build.encode(reply.value);
        if |payload| > MAX_FRAME_LENGTH then s1.(remote := RemoteError, mi := CloseUp(s.mi))
        else s1.(remote := Building(s.remote.peer, addr, poked), mi := Send(s.mi, payload))
  }

  // ---------- Events ----------

  datatype Event =
    // the initiator
    | Opens | OpenFails
    | InitFill(chunk: nat, space: nat)
    | PollsInternetAddress(interfaces: seq<Address>)
    | PollsExchange
    | InitAtEnd
    | NoConnection                            // timeout, a failed attempt, or no attempt left
    | Connects(peer: PeerId)
    | StreamFails | StreamOpens
    | Proxies | ProxySendFails
    | InitWrites(data: Bytes)
    | InitReads(chunk: nat, space: nat) | InitPollsBytes(chunk: nat)
    | InitDrops
    // the relay
    | RelayFill(chunk: nat, space: nat)
    | RelayPolls | RelayOpened
    | RelayStops                              // unknown peer, timeout, an error, or one side ended
    | ForwardsToRemote(chunk: nat) | ForwardsToInitiator(chunk: nat)
    // the remote
    | RemoteFill(chunk: nat, space: nat)
    | RemoteHello
    | RemotePoll(interfaces: seq<Address>)
    | RemoteAtEnd | RemoteTimesOut
    | RemoteWrites(data: Bytes)
    | RemoteReads(chunk: nat, space: nat) | RemotePollsBytes(chunk: nat)
    | RemoteDrops
    // the network: a hop breaks behind its first n bytes
    | CutsImUp(n: nat) | CutsImDown(n: nat) | CutsMiUp(n: nat) | CutsMiDown(n: nat)

  function StepInitiator(c: Setup, s: State, e: Event): State {
    match e
    case Opens => InitOpens(c, s)
    case OpenFails => if s.init.WaitingForProxyStream? then InitFails(s, OpenFailed) else s
    case InitFill(chunk, space) =>
      if InitListens(s.init) && chunk <= |s.mi.down.io.wire| then s.(mi := FillDown(s.mi, chunk, space)) else s
    case PollsInternetAddress(interfaces) => InitPollsInternetAddress(c, s, interfaces)
    case PollsExchange => InitPollsExchange(c, s)
    case InitAtEnd => if InitListens(s.init) && AtEnd(s.mi) then InitFails(s, StreamClosed) else s
    case NoConnection => if s.init.WaitingForConnection? then s.(init := ProxyStream) else s
    case Connects(peer) => if s.init.WaitingForConnection? then s.(init := WaitingForStream(peer)) else s
    case StreamFails => if s.init.WaitingForStream? then s.(init := ProxyStream) else s
    case StreamOpens => InitBuildsDirect(c, s)
    case Proxies => InitProxies(c, s)
    case ProxySendFails => if s.init.ProxyStream? then InitFails(s, SendFailed) else s
    case _ => s
  }

  function StepInitiatorUser(s: State, e: Event): State {
    match e
    case InitWrites(data) => if InitProxied(s) then s.(im := Write(s.im, data)) else s
    case InitReads(chunk, space) =>
      if InitProxied(s) && chunk <= |s.mi.down.io.wire| then s.(mi := ReadDown(s.mi, chunk, space)) else s
    case InitPollsBytes(chunk) =>
      if InitProxied(s) && chunk <= |s.mi.down.io.wire| then s.(mi := PollDown(s.mi, chunk)) else s
    case InitDrops => s.(im := CloseUp(s.im))
    case _ => s
  }

  function StepRelay(c: Setup, s: State, e: Event): State {
    match e
    case RelayFill(chunk, space) =>
      if s.relay.AwaitingHello? && chunk <= |s.im.up.io.wire|
      then s.(im := s.im.(up := Fill(s.im.up, chunk, space))) else s
    case RelayPolls => RelayPollsHello(c, s)
    case RelayOpened => RelayOpens(c, s)
    case RelayStops => RelayEnds(s)
    case ForwardsToRemote(chunk) =>
      if s.relay.Splicing? && !s.im.downClosed && chunk <= |s.im.up.io.wire| then s.(im := Forward(s.im, chunk)) else s
    case ForwardsToInitiator(chunk) =>
      if s.relay.Splicing? && !s.mi.downClosed && chunk <= |s.mi.up.io.wire| then s.(mi := Forward(s.mi, chunk)) else s
    case _ => s
  }

  function StepRemote(c: Setup, s: State, e: Event): State {
    match e
    case RemoteFill(chunk, space) =>
      if (s.remote.Incoming? || s.remote.Building?) && chunk <= |s.im.down.io.wire|
      then s.(im := FillDown(s.im, chunk, space)) else s
    case RemoteHello => RemotePollsHello(c, s)
    case RemotePoll(interfaces) => RemotePolls(c, s, interfaces)
    case RemoteAtEnd =>
      if (s.remote.Incoming? || s.remote.Building?) && AtEnd(s.im)
      then s.(remote := Finished, mi := CloseUp(s.mi)) else s
    case RemoteTimesOut => if s.remote.Incoming? then s.(remote := RemoteError, mi := CloseUp(s.mi)) else s
    case RemoteWrites(data) => if s.remote.Passed? then s.(mi := Write(s.mi, data)) else s
    case RemoteReads(chunk, space) =>
      if s.remote.Passed? && chunk <= |s.im.down.io.wire| then s.(im := ReadDown(s.im, chunk, space)) else s
    case RemotePollsBytes(chunk) =>
      if s.remote.Passed? && chunk <= |s.im.down.io.wire| then s.(im := PollDown(s.im, chunk)) else s
    case RemoteDrops => s.(mi := CloseUp(s.mi))
    case _ => s
  }

  function StepNetwork(s: State, e: Event): State {
    match e
    case CutsImUp(n) => if n <= |s.im.up.io.wire| then s.(im := CutUp(s.im, n)) else s
    case CutsImDown(n) => if n <= |s.im.down.io.wire| then s.(im := CutDown(s.im, n)) else s
    case CutsMiUp(n) => if n <= |s.mi.up.io.wire| then s.(mi := CutUp(s.mi, n)) else s
    case CutsMiDown(n) => if n <= |s.mi.down.io.wire| then s.(mi := CutDown(s.mi, n)) else s
    case _ => s
  }

  /** Every event is handled by exactly one of the four parts; the others leave the state alone. */
  function Step(c: Setup, s: State, e: Event): State {
    StepNetwork(StepRemote(c, StepRelay(c, StepInitiatorUser(StepInitiator(c, s, e), e), e), e), e)
  }

  function Run(c: Setup, s: State, events: seq<Event>): State
    decreases |events|
  {
    if events == [] then s else Run(c, Step(c, s, events[0]), events[1..])
  }
}
