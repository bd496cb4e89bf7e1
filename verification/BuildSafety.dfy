/** What every run of the three-party protocol keeps, and what follows for its users. */
module BuildSafety {
  import opened Common
  import opened Framing
  import opened Transport
  import opened ProtocolReader
  import opened RelayLine
  import opened Messages
  import opened Streams
  import opened BuildProtocol

  // ---------- The invariant ----------

  predicate Excluded(why: Failure) { why == IllegalMessage || why == Undecodable }

  /** The bytes the initiator has put on its hop before the relay speaks. */
  function HelloBytes(c: Setup, s: State): Bytes {
    var payload := c.hello.encode(ProxyBuildConnectionToPeer(c.remote));
    if s.init.WaitingForProxyStream? || |payload| > MAX_FRAME_LENGTH then [] else Frame(payload)
  }

  /** Nothing was written on the line, and nothing is on its second hop. */
  predicate Blank(l: Line) {
    l.ctrl == [] && l.user == [] && l.taken == 0 && l.delivered == [] && l.down.Valid() && l.down.Ahead() == []
  }

  /** As long as the relay has not reached the remote. */
  predicate Before(c: Setup, s: State) {
    && s.remote.Absent? && s.passes == 0
    && Blank(s.im) && Blank(s.mi) && s.mi.Valid()
    && (s.init.WaitingForProxyStream? || s.init.WaitingForInternetAddressInformation?
        || (s.init.PeerToPeerError? && !Excluded(s.init.why)))
    && match s.relay
       case AwaitingHello =>
         && s.im.up.Valid() && s.im.up.Ahead() <= HelloBytes(c, s)
         && (!s.im.upClosed ==> s.im.up.Ahead() == HelloBytes(c, s))
       case Opening(target, hello) =>
         && !s.init.WaitingForProxyStream? && s.im.Valid()
         && target == c.remote && hello == StreamHello.BuildConnectionToPeer(c.initiator)
       case Splicing => false
       case Gone => true
  }

  predicate IsExchange(c: Setup, payload: Bytes, last: Address) {
    var m := c.build.decode(payload);
    m.Some? && m.value.ExchangeAddressInformation? && EndsWith(m.value.addrs, last)
  }

  /** The addresses in a frame of the exchange. */
  function Listed(c: Setup, payload: Bytes): seq<Address> {
    var m := c.build.decode(payload);
    if m.Some? && m.value.ExchangeAddressInformation? then m.value.addrs else []
  }

  /** The control frames from initiator to remote, in order. */
  predicate ImFrames(c: Setup, ctrl: seq<Bytes>) {
    && 2 <= |ctrl| <= 4
    && c.hello.decode(ctrl[0]) == Some(StreamHello.BuildConnectionToPeer(c.initiator))
    && c.build.decode(ctrl[1]) == Some(InternetAddressInformation(c.seenRemote))
    && (|ctrl| >= 3 ==> IsExchange(c, ctrl[2], c.seenInitiator))
    && (|ctrl| >= 4 ==> c.build.decode(ctrl[3]) == Some(ProxyConnection))
  }

  /** The control frames from remote to initiator, in order. */
  predicate MiFrames(c: Setup, ctrl: seq<Bytes>) {
    && 1 <= |ctrl| <= 2
    && c.build.decode(ctrl[0]) == Some(InternetAddressInformation(c.seenInitiator))
    && (|ctrl| >= 2 ==> IsExchange(c, ctrl[1], c.seenRemote))
  }

  /** How far the initiator's state says it is in both directions. */
  predicate InitiatorAt(c: Setup, s: State) {
    match s.init
    case WaitingForProxyStream => false
    case WaitingForInternetAddressInformation => |s.im.ctrl| == 2 && s.mi.taken == 0
    case WaitingForExchangeAddressInformation => |s.im.ctrl| == 3 && s.mi.taken == 1
    case WaitingForConnection(candidates) => Settled(s) && |s.mi.ctrl| == 2 && candidates == Listed(c, s.mi.ctrl[1])
    case WaitingForStream(_) => Settled(s)
    case ProxyStream => Settled(s)
    case ConnectionBuilt(end) =>
      && s.mi.taken == 2
      && (end.proxy ==> |s.im.ctrl| == 4 && s.mi.down.Bare() && end == NewEnd(c.remote, c.InitiatorHandle(), true))
      && (!end.proxy ==> |s.im.ctrl| == 3)
    case PeerToPeerError(why) => |s.im.ctrl| <= 3 && !Excluded(why)
  }

  /** The initiator has read all control frames and stopped listening between two frames. */
  predicate Settled(s: State) { |s.im.ctrl| == 3 && s.mi.taken == 2 && s.mi.down.dec.phase.Head? }

  /** How far the remote's state says it is in both directions. */
  predicate RemoteAt(c: Setup, s: State) {
    match s.remote
    case Absent => false
    case Incoming => s.im.taken == 0 && |s.mi.ctrl| == 1
    case Building(peer, addr, poked) =>
      && peer == c.initiator && 1 <= s.im.taken <= 3
      && |s.mi.ctrl| == (if s.im.taken == 3 then 2 else 1)
      && addr == (if s.im.taken == 1 then None else Some(c.seenRemote))
      && (if s.im.taken == 3 then |s.im.ctrl| >= 3 && poked == Listed(c, s.im.ctrl[2]) else poked == [])
    case Passed(end) =>
      && s.im.taken == 4 && |s.mi.ctrl| == 2 && s.im.down.Bare()
      && end == NewEnd(c.initiator, c.RemoteHandle(), true)
    case Finished => s.im.taken <= 3
    case Panicked => false
    case RemoteError => s.im.taken <= 3
  }

  /** Once the relay has reached the remote. */
  predicate After(c: Setup, s: State) {
    && (s.relay.Splicing? || s.relay.Gone?)
    && s.im.Valid() && s.mi.Valid()
    && ImFrames(c, s.im.ctrl) && MiFrames(c, s.mi.ctrl)
    && InitiatorAt(c, s) && RemoteAt(c, s)
    && (s.im.user != [] || s.mi.delivered != [] ==> InitProxied(s))
    && (s.mi.user != [] || s.im.delivered != [] ==> s.remote.Passed?)
    && s.passes == (if s.remote.Passed? then 1 else 0)
  }

  predicate Inv(c: Setup, s: State) { if s.remote.Absent? then Before(c, s) else After(c, s) }

  // ---------- Each step keeps it ----------

  lemma BlankLineIsValid(l: Line)
    requires Blank(l) && l.up.Valid() && l.up.Bare() && l.up.Ahead() == []
    ensures l.Valid()
  {
  }

  lemma TakeAsExpected<M>(codec: Codec<M>, l: Line)
    requires l.Valid() && (l.user != [] ==> l.taken < |l.ctrl|)
    requires l.taken < |l.ctrl| ==> codec.decode(l.ctrl[l.taken]).Some?
    ensures var (l', got) := TakeAs(codec, l);
      && l'.Valid() && l'.ctrl == l.ctrl && l'.user == l.user && l'.delivered == l.delivered && !got.Garbled?
      && (got.Nothing? ==> l'.taken == l.taken)
      && (got.Message? ==>
            && l.taken < |l.ctrl| && l'.taken == l.taken + 1
            && codec.decode(l.ctrl[l.taken]) == Some(got.msg) && l'.down.dec.phase.Head?)
  {
    TakeDownKeeps(l);
  }

  lemma NothingToTake<M>(codec: Codec<M>, l: Line)
    requires Blank(l) && l.Valid()
    ensures TakeAs(codec, l) == (l, Nothing)
  {
    TakeNothing(l);
  }

  /** After the relay has joined the lines, a change that only moves bytes keeps the invariant. */
  lemma ReplaceLines(c: Setup, s: State, im: Line, mi: Line)
    requires After(c, s) && im.Valid() && mi.Valid()
    requires im.ctrl == s.im.ctrl && im.taken == s.im.taken && mi.ctrl == s.mi.ctrl && mi.taken == s.mi.taken
    requires s.remote.Passed? ==> im.down.dec == s.im.down.dec
    requires !InitListens(s.init) ==> mi.down.dec == s.mi.down.dec
    requires (im.user == s.im.user && mi.delivered == s.mi.delivered) || InitProxied(s)
    requires (mi.user == s.mi.user && im.delivered == s.im.delivered) || s.remote.Passed?
    ensures After(c, s.(im := im, mi := mi))
  {
    hide Line.Flowing;
  }

  // ---------- Before the relay has reached the remote ----------

  lemma InitOpensKeeps(c: Setup, s: State)
    requires c.Valid() && Before(c, s)
    ensures Before(c, InitOpens(c, s))
  {
    hide Line.Flowing;
    if s.init.WaitingForProxyStream? && s.relay.AwaitingHello? {
      AppendAhead(s.im.up, Frame(c.hello.encode(ProxyBuildConnectionToPeer(c.remote))));
    }
  }

  lemma InitiatorBefore(c: Setup, s: State, e: Event)
    requires c.Valid() && Before(c, s)
    ensures Before(c, StepInitiator(c, s, e))
  {
    hide Line.Flowing;
    CloseKeeps(s.im);
    match e
    case Opens => InitOpensKeeps(c, s);
    case InitFill(chunk, space) =>
      if chunk <= |s.mi.down.io.wire| {
        FillConserves(s.mi.down, chunk, space);
        FillDownKeeps(s.mi, chunk, space);
      }
    case PollsInternetAddress(_) => NothingToTake(c.build, s.mi);
    case _ =>
  }

  /** The relay either needs more bytes or has the whole hello, and nothing behind it. */
  lemma HelloOutcome(c: Setup, s: State)
    requires c.Valid() && Before(c, s) && s.relay.AwaitingHello?
    ensures var (up, out) := TakeFrame(s.im.up);
      && up.Valid() && !out.Oversized?
      && (out.NeedMore? ==> up.Ahead() == s.im.up.Ahead())
      && (out.Payload? ==>
            && out.bytes == c.hello.encode(ProxyBuildConnectionToPeer(c.remote)) && !s.init.WaitingForProxyStream?
            && up.Ahead() == [] && up.dec.phase.Head?)
  {
    hide Line.Flowing;
    var payload := c.hello.encode(ProxyBuildConnectionToPeer(c.remote));
    var (up, out) := TakeFrame(s.im.up);
    TakeFrameConserves(s.im.up);
    if out.Payload? {
      HelloTaken(out.bytes, up.Ahead(), payload);
    } else if out.Oversized? {
      HelloNotOversized(s.im.up, payload);
    }
  }

  lemma RelayPollsHelloKeeps(c: Setup, s: State)
    requires c.Valid() && Before(c, s) && s.relay.AwaitingHello?
    ensures Before(c, RelayPollsHello(c, s))
  {
    var (up, out) := TakeFrame(s.im.up);
    HelloOutcome(c, s);
    if out.Payload? {
      SwitchConservesIffBetweenFrames(up);
      BlankLineIsValid(s.im.(up := IntoTransport(up)));
    }
    hide Line.Flowing, TakeFrame, IntoTransport;
  }

  lemma HelloTaken(bytes: Bytes, rest: Bytes, payload: Bytes)
    requires |bytes| <= MAX_FRAME_LENGTH && |payload| <= MAX_FRAME_LENGTH
    requires Frame(bytes) + rest <= Frame(payload)
    ensures bytes == payload && rest == []
  {
    assert Frame(payload) + [] == Frame(payload);
    FramePrefixUnique(bytes, rest, payload, []);
  }

  lemma HelloNotOversized(r: Reader, payload: Bytes)
    requires r.Valid() && |payload| <= MAX_FRAME_LENGTH && r.Ahead() <= Frame(payload)
    ensures !TakeFrame(r).1.Oversized?
  {
    assert Frame(payload) + [] == Frame(payload);
    DecodeInFrame(r.dec, r.io.Undelivered(), payload, []);
  }

  /** The frames that the relay puts in front of both directions. */
  lemma JoinedFrames(c: Setup)
    requires c.Valid()
    ensures var hello := c.hello.encode(StreamHello.BuildConnectionToPeer(c.initiator));
      var toRemote := c.build.encode(InternetAddressInformation(c.seenRemote));
      var toInitiator := c.build.encode(InternetAddressInformation(c.seenInitiator));
      && Sendable([hello, toRemote]) && Sendable([toInitiator])
      && ImFrames(c, [hello, toRemote]) && MiFrames(c, [toInitiator])
  {
  }

  /** The lines are joined and carry the relay's frames, nobody has read anything yet. */
  lemma JoinedIsAfter(c: Setup, s: State, im: Line, mi: Line)
    requires Before(c, s) && s.relay.Opening? && im.Valid() && mi.Valid()
    requires ImFrames(c, im.ctrl) && MiFrames(c, mi.ctrl) && |im.ctrl| == 2 && |mi.ctrl| == 1
    requires im.taken == 0 && mi.taken == 0 && im.user == mi.user == [] && im.delivered == mi.delivered == []
    ensures After(c, s.(relay := Splicing, remote := Incoming, im := im, mi := mi))
  {
    hide Line.Valid, Blank, ImFrames, MiFrames;
  }

  lemma RelayOpensKeeps(c: Setup, s: State)
    requires c.Valid() && Before(c, s) && s.relay.Opening?
    ensures After(c, RelayOpens(c, s))
  {
    hide Line.Flowing, After;
    JoinedFrames(c);
    var hello := c.hello.encode(s.relay.hello);
    var toRemote := c.build.encode(InternetAddressInformation(c.seenRemote));
    var toInitiator := c.build.encode(InternetAddressInformation(c.seenInitiator));
    InjectKeeps(s.im, [hello, toRemote]);
    InjectKeeps(s.mi, [toInitiator]);
    assert [] + [hello, toRemote] == [hello, toRemote] && [] + [toInitiator] == [toInitiator];
    hide ImFrames, MiFrames, Sendable;
    JoinedIsAfter(c, s, Inject(s.im, [hello, toRemote]), Inject(s.mi, [toInitiator]));
  }

  lemma RelayFillKeeps(c: Setup, s: State, chunk: nat, space: nat)
    requires Before(c, s) && s.relay.AwaitingHello? && chunk <= |s.im.up.io.wire|
    ensures Before(c, s.(im := s.im.(up := Fill(s.im.up, chunk, space))))
  {
    FillConserves(s.im.up, chunk, space);
    hide Line.Flowing, Fill;
  }

  lemma RelayEndsEarly(c: Setup, s: State)
    requires Before(c, s)
    ensures Before(c, RelayEnds(s))
  {
    hide Line.Flowing;
    CloseKeeps(s.im);
    CloseKeeps(s.mi);
  }

  lemma RelayBefore(c: Setup, s: State, e: Event)
    requires c.Valid() && Before(c, s)
    ensures Before(c, StepRelay(c, s, e)) || After(c, StepRelay(c, s, e))
  {
    NotSplicing(c, s);
    hide Before, After, RelayPollsHello, RelayOpens, RelayEnds, Fill, Forward, Line.Valid;
    match e
    case RelayFill(chunk, space) =>
      if s.relay.AwaitingHello? && chunk <= |s.im.up.io.wire| { RelayFillKeeps(c, s, chunk, space); }
    case RelayPolls => if s.relay.AwaitingHello? { RelayPollsHelloKeeps(c, s); } else { RelayUnmoved(c, s); }
    case RelayOpened => if s.relay.Opening? { RelayOpensKeeps(c, s); } else { RelayUnmoved(c, s); }
    case RelayStops => RelayEndsEarly(c, s);
    case _ =>
  }

  lemma NotSplicing(c: Setup, s: State)
    requires Before(c, s)
    ensures !s.relay.Splicing?
  {
    hide Line.Valid, Blank;
  }

  /** A step of the relay that belongs to another state changes nothing. */
  lemma RelayUnmoved(c: Setup, s: State)
    ensures !s.relay.AwaitingHello? ==> RelayPollsHello(c, s) == s
    ensures !s.relay.Opening? ==> RelayOpens(c, s) == s
  {
  }

  /** A cut shortens what a hop carries. */
  lemma CutReader(r: Reader, n: nat)
    requires r.Valid() && n <= |r.io.wire|
    ensures var r' := r.(io := r.io.(wire := r.io.wire[..n])); r'.Valid() && r'.Ahead() <= r.Ahead()
  {
    var r' := r.(io := r.io.(wire := r.io.wire[..n]));
    assert r.io.wire == r.io.wire[..n] + r.io.wire[n..];
    assert r == Append(r', r.io.wire[n..]);
    AppendAhead(r', r.io.wire[n..]);
  }

  lemma NetworkBeforeUp(c: Setup, s: State, n: nat)
    requires c.Valid() && Before(c, s) && n <= |s.im.up.io.wire|
    ensures Before(c, s.(im := CutUp(s.im, n)))
  {
    hide Line.Flowing;
    if s.relay.Opening? {
      CutUpKeeps(s.im, n);
    } else if s.relay.AwaitingHello? {
      CutReader(s.im.up, n);
      PrefixOfPrefix(CutUp(s.im, n).up.Ahead(), s.im.up.Ahead(), HelloBytes(c, s));
    }
  }

  lemma NetworkBeforeDown(c: Setup, s: State, n: nat)
    requires c.Valid() && Before(c, s) && n <= |s.im.down.io.wire|
    ensures Before(c, s.(im := CutDown(s.im, n)))
  {
    hide Line.Flowing;
    CutReader(s.im.down, n);
    if s.relay.Opening? { CutDownKeeps(s.im, n); }
  }

  lemma NetworkBefore(c: Setup, s: State, e: Event)
    requires c.Valid() && Before(c, s)
    ensures Before(c, StepNetwork(s, e))
  {
    hide Line.Flowing;
    match e
    case CutsImUp(n) => if n <= |s.im.up.io.wire| { NetworkBeforeUp(c, s, n); }
    case CutsImDown(n) => if n <= |s.im.down.io.wire| { NetworkBeforeDown(c, s, n); }
    case CutsMiUp(n) => if n <= |s.mi.up.io.wire| { CutUpKeeps(s.mi, n); }
    case CutsMiDown(n) =>
      if n <= |s.mi.down.io.wire| {
        CutDownKeeps(s.mi, n);
        CutReader(s.mi.down, n);
      }
    case _ =>
  }

  // ---------- After the relay has reached the remote ----------

  lemma InitPollsInternetAddressKeeps(c: Setup, s: State, interfaces: seq<Address>)
    requires c.Valid() && After(c, s) && s.init.WaitingForInternetAddressInformation?
    ensures After(c, InitPollsInternetAddress(c, s, interfaces))
  {
    hide Line.Flowing;
    CloseKeeps(s.im);
    TakeAsExpected(c.build, s.mi);
    var (mi, got) := TakeAs(c.build, s.mi);
    if got.Message? {
      var payload := c.build.encode(ExchangeAddressInformation(interfaces + [got.msg.addr]));
      assert EndsWith(interfaces + [got.msg.addr], c.seenInitiator);
      if |payload| <= MAX_FRAME_LENGTH { SendKeeps(s.im, payload); }
    }
  }

  lemma InitPollsExchangeKeeps(c: Setup, s: State)
    requires c.Valid() && After(c, s) && s.init.WaitingForExchangeAddressInformation?
    ensures After(c, InitPollsExchange(c, s))
  {
    hide Line.Flowing;
    TakeAsExpected(c.build, s.mi);
  }

  lemma InitProxiesKeeps(c: Setup, s: State)
    requires c.Valid() && After(c, s) && s.init.ProxyStream?
    ensures After(c, InitProxies(c, s))
  {
    hide Line.Flowing;
    SendKeeps(s.im, c.build.encode(ProxyConnection));
    SwitchDownKeeps(s.mi);
  }

  lemma InitFailsKeeps(c: Setup, s: State, why: Failure)
    requires After(c, s) && !Excluded(why) && (InitListens(s.init) || s.init.ProxyStream?)
    ensures After(c, InitFails(s, why))
  {
    hide Line.Flowing, ImFrames, MiFrames;
    CloseKeeps(s.im);
  }

  /** A failed attempt or a new connection only changes the state of the initiator. */
  lemma SettledKeeps(c: Setup, s: State, init: Initiator)
    requires After(c, s) && (s.init.WaitingForConnection? || s.init.WaitingForStream?)
    requires init.WaitingForStream? || init.ProxyStream?
    ensures After(c, s.(init := init))
  {
    hide Line.Valid, ImFrames, MiFrames;
  }

  lemma InitBuildsDirectKeeps(c: Setup, s: State)
    requires After(c, s)
    ensures After(c, InitBuildsDirect(c, s))
  {
    hide Line.Flowing, ImFrames, MiFrames;
    CloseKeeps(s.im);
  }

  lemma Started(c: Setup, s: State)
    requires After(c, s)
    ensures !s.init.WaitingForProxyStream?
  {
    hide Line.Valid, ImFrames, MiFrames;
  }

  lemma InitFillKeeps(c: Setup, s: State, chunk: nat, space: nat)
    requires After(c, s) && InitListens(s.init) && chunk <= |s.mi.down.io.wire|
    ensures After(c, s.(mi := FillDown(s.mi, chunk, space)))
  {
    hide Line.Flowing, ImFrames, MiFrames;
    FillDownKeeps(s.mi, chunk, space);
    ReplaceLines(c, s, s.im, FillDown(s.mi, chunk, space));
  }

  lemma InitiatorAfter(c: Setup, s: State, e: Event)
    requires c.Valid() && After(c, s)
    ensures After(c, StepInitiator(c, s, e))
  {
    hide After, InitPollsInternetAddress, InitPollsExchange, InitProxies, InitBuildsDirect;
    match e
    case Opens => Started(c, s);
    case OpenFails => Started(c, s);
    case InitFill(chunk, space) =>
      if InitListens(s.init) && chunk <= |s.mi.down.io.wire| { InitFillKeeps(c, s, chunk, space); }
    case PollsInternetAddress(interfaces) =>
      if s.init.WaitingForInternetAddressInformation? { InitPollsInternetAddressKeeps(c, s, interfaces); }
      else { Unmoved(c, s, interfaces); }
    case PollsExchange =>
      if s.init.WaitingForExchangeAddressInformation? { InitPollsExchangeKeeps(c, s); } else { Unmoved(c, s, []); }
    case InitAtEnd => if InitListens(s.init) { InitFailsKeeps(c, s, StreamClosed); }
    case NoConnection => if s.init.WaitingForConnection? { SettledKeeps(c, s, ProxyStream); }
    case Connects(peer) => if s.init.WaitingForConnection? { SettledKeeps(c, s, WaitingForStream(peer)); }
    case StreamFails => if s.init.WaitingForStream? { SettledKeeps(c, s, ProxyStream); }
    case StreamOpens => InitBuildsDirectKeeps(c, s);
    case Proxies => if s.init.ProxyStream? { InitProxiesKeeps(c, s); } else { Unmoved(c, s, []); }
    case ProxySendFails => if s.init.ProxyStream? { InitFailsKeeps(c, s, SendFailed); }
    case _ =>
  }

  /** A step of the initiator that belongs to another state changes nothing. */
  lemma Unmoved(c: Setup, s: State, interfaces: seq<Address>)
    ensures !s.init.WaitingForInternetAddressInformation? ==> InitPollsInternetAddress(c, s, interfaces) == s
    ensures !s.init.WaitingForExchangeAddressInformation? ==> InitPollsExchange(c, s) == s
    ensures !s.init.ProxyStream? ==> InitProxies(c, s) == s
  {
  }

  lemma InitiatorUserAfter(c: Setup, s: State, e: Event)
    requires c.Valid() && After(c, s)
    ensures After(c, StepInitiatorUser(s, e))
  {
    hide Line.Flowing;
    match e
    case InitWrites(data) =>
      if InitProxied(s) {
        WriteKeeps(s.im, data);
        ReplaceLines(c, s, Write(s.im, data), s.mi);
      }
    case InitReads(chunk, space) =>
      if InitProxied(s) && chunk <= |s.mi.down.io.wire| {
        ReadDownKeeps(s.mi, chunk, space);
        ReplaceLines(c, s, s.im, ReadDown(s.mi, chunk, space));
      }
    case InitPollsBytes(chunk) =>
      if InitProxied(s) && chunk <= |s.mi.down.io.wire| {
        PollDownKeeps(s.mi, chunk);
        ReplaceLines(c, s, s.im, PollDown(s.mi, chunk));
      }
    case InitDrops =>
      CloseKeeps(s.im);
      ReplaceLines(c, s, CloseUp(s.im), s.mi);
    case _ =>
  }

  lemma RelayEndsKeeps(c: Setup, s: State)
    requires After(c, s)
    ensures After(c, RelayEnds(s))
  {
    hide Line.Flowing, ImFrames, MiFrames;
    CloseKeeps(s.im);
    CloseKeeps(s.mi);
    ReplaceLines(c, s, CloseDown(s.im), CloseDown(s.mi));
  }

  lemma ForwardsKeep(c: Setup, s: State, chunk: nat)
    requires After(c, s)
    ensures !s.im.downClosed && chunk <= |s.im.up.io.wire| ==> After(c, s.(im := Forward(s.im, chunk)))
    ensures !s.mi.downClosed && chunk <= |s.mi.up.io.wire| ==> After(c, s.(mi := Forward(s.mi, chunk)))
  {
    hide Line.Flowing, ImFrames, MiFrames;
    if !s.im.downClosed && chunk <= |s.im.up.io.wire| {
      ForwardKeeps(s.im, chunk);
      ReplaceLines(c, s, Forward(s.im, chunk), s.mi);
    }
    if !s.mi.downClosed && chunk <= |s.mi.up.io.wire| {
      ForwardKeeps(s.mi, chunk);
      ReplaceLines(c, s, s.im, Forward(s.mi, chunk));
    }
  }

  lemma RelayAfter(c: Setup, s: State, e: Event)
    requires c.Valid() && After(c, s)
    ensures After(c, StepRelay(c, s, e))
  {
    Spliced(c, s);
    hide After, RelayEnds, Forward;
    match e
    case RelayStops => RelayEndsKeeps(c, s);
    case ForwardsToRemote(chunk) => ForwardsKeep(c, s, chunk);
    case ForwardsToInitiator(chunk) => ForwardsKeep(c, s, chunk);
    case _ =>
  }

  lemma Spliced(c: Setup, s: State)
    requires After(c, s)
    ensures s.relay.Splicing? || s.relay.Gone?
  {
    hide Line.Valid, ImFrames, MiFrames;
  }

  lemma RemotePollsHelloKeeps(c: Setup, s: State)
    requires c.Valid() && After(c, s) && s.remote.Incoming?
    ensures After(c, RemotePollsHello(c, s))
  {
    hide Line.Flowing;
    TakeAsExpected(c.hello, s.im);
    var (im, got) := TakeAs(c.hello, s.im);
    if got.Message? { SwitchDownKeeps(im); }
  }

  lemma RemotePollsKeeps(c: Setup, s: State, interfaces: seq<Address>)
    requires c.Valid() && After(c, s) && s.remote.Building?
    ensures After(c, RemotePolls(c, s, interfaces))
  {
    hide Line.Flowing;
    CloseKeeps(s.mi);
    TakeAsExpected(c.build, s.im);
    var (im, got) := TakeAs(c.build, s.im);
    if got.Message? {
      if s.im.taken == 2 {
        var addrs := interfaces + [c.seenRemote];
        assert EndsWith(addrs, c.seenRemote) && [] + got.msg.addrs == got.msg.addrs;
        var payload := c.build.encode(ExchangeAddressInformation(addrs));
        if |payload| <= MAX_FRAME_LENGTH { SendKeeps(s.mi, payload); }
      } else if s.im.taken == 3 {
        SwitchDownKeeps(im);
      }
    }
  }

  lemma RemoteUserAfter(c: Setup, s: State, e: Event)
    requires c.Valid() && After(c, s) && s.remote.Passed?
    ensures After(c, StepRemote(c, s, e))
  {
    hide Line.Flowing;
    match e
    case RemoteWrites(data) =>
      WriteKeeps(s.mi, data);
      ReplaceLines(c, s, s.im, Write(s.mi, data));
    case RemoteReads(chunk, space) =>
      if chunk <= |s.im.down.io.wire| {
        ReadDownKeeps(s.im, chunk, space);
        ReplaceLines(c, s, ReadDown(s.im, chunk, space), s.mi);
      }
    case RemotePollsBytes(chunk) =>
      if chunk <= |s.im.down.io.wire| {
        PollDownKeeps(s.im, chunk);
        ReplaceLines(c, s, PollDown(s.im, chunk), s.mi);
      }
    case RemoteDrops =>
      CloseKeeps(s.mi);
      ReplaceLines(c, s, s.im, CloseUp(s.mi));
    case _ =>
  }

  lemma RemoteAfter(c: Setup, s: State, e: Event)
    requires c.Valid() && After(c, s) && !s.remote.Passed?
    ensures After(c, StepRemote(c, s, e))
  {
    hide Line.Flowing;
    CloseKeeps(s.mi);
    match e
    case RemoteFill(chunk, space) =>
      if chunk <= |s.im.down.io.wire| {
        FillDownKeeps(s.im, chunk, space);
        ReplaceLines(c, s, FillDown(s.im, chunk, space), s.mi);
      }
    case RemoteHello => if s.remote.Incoming? { RemotePollsHelloKeeps(c, s); }
    case RemotePoll(interfaces) => if s.remote.Building? { RemotePollsKeeps(c, s, interfaces); }
    case RemoteDrops => ReplaceLines(c, s, s.im, CloseUp(s.mi));
    case _ =>
  }

  lemma NetworkAfter(c: Setup, s: State, e: Event)
    requires c.Valid() && After(c, s)
    ensures After(c, StepNetwork(s, e))
  {
    hide Line.Flowing;
    match e
    case CutsImUp(n) =>
      if n <= |s.im.up.io.wire| {
        CutUpKeeps(s.im, n);
        ReplaceLines(c, s, CutUp(s.im, n), s.mi);
      }
    case CutsImDown(n) =>
      if n <= |s.im.down.io.wire| {
        CutDownKeeps(s.im, n);
        ReplaceLines(c, s, CutDown(s.im, n), s.mi);
      }
    case CutsMiUp(n) =>
      if n <= |s.mi.up.io.wire| {
        CutUpKeeps(s.mi, n);
        ReplaceLines(c, s, s.im, CutUp(s.mi, n));
      }
    case CutsMiDown(n) =>
      if n <= |s.mi.down.io.wire| {
        CutDownKeeps(s.mi, n);
        ReplaceLines(c, s, s.im, CutDown(s.mi, n));
      }
    case _ =>
  }

  // ---------- Every run ----------

  lemma EitherIsInv(c: Setup, s: State)
    ensures Before(c, s) || After(c, s) ==> Inv(c, s)
  {
  }

  lemma StepInitiatorKeeps(c: Setup, s: State, e: Event)
    requires c.Valid() && Inv(c, s)
    ensures Inv(c, StepInitiator(c, s, e))
  {
    hide Before, After, StepInitiator;
    if s.remote.Absent? { InitiatorBefore(c, s, e); } else { InitiatorAfter(c, s, e); }
    EitherIsInv(c, StepInitiator(c, s, e));
  }

  /** Before the handover a user event can only drop an end. */
  lemma UserBefore(c: Setup, s: State, e: Event)
    requires c.Valid() && Before(c, s)
    ensures Before(c, StepInitiatorUser(s, e)) && Before(c, StepRemote(c, s, e))
  {
    DropBefore(c, s);
    NobodyReads(c, s);
    hide Before, CloseUp, Line.Valid;
  }

  lemma DropBefore(c: Setup, s: State)
    requires Before(c, s)
    ensures Before(c, s.(im := CloseUp(s.im))) && Before(c, s.(mi := CloseUp(s.mi)))
  {
    hide Line.Flowing;
    CloseKeeps(s.im);
    CloseKeeps(s.mi);
  }

  lemma NobodyReads(c: Setup, s: State)
    requires Before(c, s)
    ensures s.remote.Absent? && !InitProxied(s)
  {
    hide Line.Valid, Blank;
  }

  lemma StepOthersKeep(c: Setup, s: State, e: Event)
    requires c.Valid() && Inv(c, s)
    ensures Inv(c, StepInitiatorUser(s, e)) && Inv(c, StepRelay(c, s, e))
    ensures Inv(c, StepRemote(c, s, e)) && Inv(c, StepNetwork(s, e))
  {
    hide Before, After, StepInitiatorUser, StepRelay, StepRemote, StepNetwork;
    EitherIsInv(c, StepInitiatorUser(s, e));
    EitherIsInv(c, StepRelay(c, s, e));
    EitherIsInv(c, StepRemote(c, s, e));
    EitherIsInv(c, StepNetwork(s, e));
    if s.remote.Absent? {
      UserBefore(c, s, e);
      RelayBefore(c, s, e);
      NetworkBefore(c, s, e);
    } else {
      InitiatorUserAfter(c, s, e);
      RelayAfter(c, s, e);
      if s.remote.Passed? { RemoteUserAfter(c, s, e); } else { RemoteAfter(c, s, e); }
      NetworkAfter(c, s, e);
    }
  }

  lemma StepKeeps(c: Setup, s: State, e: Event)
    requires c.Valid() && Inv(c, s)
    ensures Inv(c, BuildProtocol.Step(c, s, e))
  {
    hide Inv;
    StepInitiatorKeeps(c, s, e);
    var s1 := StepInitiator(c, s, e);
    StepOthersKeep(c, s1, e);
    var s2 := StepInitiatorUser(s1, e);
    StepOthersKeep(c, s2, e);
    var s3 := StepRelay(c, s2, e);
    StepOthersKeep(c, s3, e);
    StepOthersKeep(c, StepRemote(c, s3, e), e);
  }

  lemma {:induction false} RunKeeps(c: Setup, s: State, events: seq<Event>)
    requires c.Valid() && Inv(c, s)
    ensures Inv(c, BuildProtocol.Run(c, s, events))
    decreases |events|
  {
    hide Inv;
    if events != [] {
      StepKeeps(c, s, events[0]);
      RunKeeps(c, BuildProtocol.Step(c, s, events[0]), events[1..]);
    }
  }

  lemma StartHolds(c: Setup)
    ensures Inv(c, START)
  {
  }

  lemma Reached(c: Setup, events: seq<Event>)
    requires c.Valid()
    ensures Inv(c, BuildProtocol.Run(c, START, events))
  {
    StartHolds(c);
    RunKeeps(c, START, events);
  }

  // ---------- Main results ----------

  /**
   In no run does the remote's `expect` on its internet address fail, and in no run does the initiator
   receive a message it does not expect or cannot decode.
   */
  lemma NoPanicAndNoIllegalMessage(c: Setup, events: seq<Event>)
    requires c.Valid()
    ensures var s := BuildProtocol.Run(c, START, events);
      !s.remote.Panicked? && !(s.init.PeerToPeerError? && Excluded(s.init.why))
  {
    hide Line.Flowing, BuildProtocol.Run;
    Reached(c, events);
  }

  /**
   In every run the remote hands the control stream over at most once, and only if the initiator took it
   as its result; then the two ends name each other, both say that the stream is proxied, and the handle of
   each leads through its own connection to the relay to the other peer.
   */
  lemma HandoverAgreement(c: Setup, events: seq<Event>)
    requires c.Valid()
    ensures var s := BuildProtocol.Run(c, START, events);
      && s.passes == (if s.remote.Passed? then 1 else 0)
      && (s.remote.Passed? ==> InitProxied(s))
      && (s.remote.Passed? ==>
            s.remote.end == StreamEnd(c.initiator, true, Handle(c.initiator, c.remote, c.far, true)))
      && (InitProxied(s) ==>
            s.init.end == StreamEnd(c.remote, true, Handle(c.remote, c.initiator, c.near, true)))
  {
    hide Line.Flowing, BuildProtocol.Run;
    Reached(c, events);
  }

  lemma {:induction false} RunAppend(c: Setup, s: State, events: seq<Event>, more: seq<Event>)
    ensures BuildProtocol.Run(c, s, events + more) == BuildProtocol.Run(c, BuildProtocol.Run(c, s, events), more)
    decreases |events|
  {
    if events == [] {
      assert events + more == more;
    } else {
      assert (events + more)[0] == events[0] && (events + more)[1..] == events[1..] + more;
      RunAppend(c, BuildProtocol.Step(c, s, events[0]), events[1..], more);
    }
  }

  lemma {:induction false} ResultIsFinal(c: Setup, s: State, events: seq<Event>)
    requires s.init.ConnectionBuilt?
    ensures BuildProtocol.Run(c, s, events).init == s.init
    decreases |events|
  {
    if events != [] {
      OnlyInitiatorMoves(c, s, events[0]);
      assert StepInitiator(c, s, events[0]).init == s.init;
      hide BuildProtocol.Step, StepInitiator;
      ResultIsFinal(c, BuildProtocol.Step(c, s, events[0]), events[1..]);
    }
  }

  /** Once the initiator has a direct connection, no continuation hands the control stream over. */
  lemma DirectResultIsNeverHandedOver(c: Setup, events: seq<Event>, more: seq<Event>)
    requires c.Valid()
    requires var s := BuildProtocol.Run(c, START, events); s.init.ConnectionBuilt? && !s.init.end.proxy
    ensures BuildProtocol.Run(c, START, events + more).passes == 0
  {
    RunAppend(c, START, events, more);
    ResultIsFinal(c, BuildProtocol.Run(c, START, events), more);
    HandoverAgreement(c, events + more);
  }

  /**
   In every run, for every chunking and every loss, what each user has read is a prefix of what the other
   user wrote: no control byte reaches a user and no user byte is taken for a control frame. While no hop
   was closed, a drained line means that the stream was handed over and everything was delivered.
   */
  lemma UserBytesArriveInOrder(c: Setup, events: seq<Event>)
    requires c.Valid()
    ensures var s := BuildProtocol.Run(c, START, events);
      && s.im.delivered <= s.im.user && s.mi.delivered <= s.mi.user
      && (s.im.delivered != [] || s.mi.user != [] ==> s.remote.Passed?)
      && (s.mi.delivered != [] || s.im.user != [] ==> InitProxied(s))
      && (InitProxied(s) && Drained(s.im) ==> s.remote.Passed? && s.im.delivered == s.im.user)
      && (InitProxied(s) && Drained(s.mi) ==> s.mi.delivered == s.mi.user)
  {
    hide Line.Flowing, BuildProtocol.Run;
    Reached(c, events);
    UserBytesFacts(c, BuildProtocol.Run(c, START, events));
  }

  lemma UserBytesFacts(c: Setup, s: State)
    requires Inv(c, s)
    ensures s.im.delivered <= s.im.user && s.mi.delivered <= s.mi.user
    ensures InitProxied(s) && Drained(s.im) ==> s.remote.Passed? && s.im.delivered == s.im.user
    ensures InitProxied(s) && Drained(s.mi) ==> s.mi.delivered == s.mi.user
  {
    hide Line.Flowing;
    DrainedFacts(s.im);
    DrainedFacts(s.mi);
    hide Drained;
  }

  lemma DrainedFacts(l: Line)
    ensures l.Valid() && Drained(l) ==> l.taken == |l.ctrl| && l.delivered == l.user
  {
    if l.Valid() && Drained(l) { DrainedLineIsComplete(l); }
  }

  predicate Drained(l: Line) {
    !l.upClosed && !l.downClosed && l.up.Valid() && l.down.Valid() && l.up.Ahead() == [] && l.down.Ahead() == []
  }

  /** Each side ends up with the address at which the relay sees the other one. */
  lemma AddressesAreExchanged(c: Setup, events: seq<Event>)
    requires c.Valid()
    ensures var s := BuildProtocol.Run(c, START, events);
      && (s.init.WaitingForConnection? ==> EndsWith(s.init.candidates, c.seenRemote))
      && (s.remote.Building? && s.remote.poked != [] ==> EndsWith(s.remote.poked, c.seenInitiator))
      && (s.remote.Building? && s.remote.internetAddr.Some? ==> s.remote.internetAddr.value == c.seenRemote)
  {
    hide Line.Flowing, BuildProtocol.Run;
    Reached(c, events);
  }

  // ---------- Whom a direct result leads to ----------

  /** Only peers of `who` answer when the initiator tries to connect directly. */
  predicate AnsweredBy(events: seq<Event>, who: set<PeerId>) {
    forall e :: e in events && e.Connects? ==> e.peer in who
  }

  predicate BuiltDirectly(s: State) { s.init.ConnectionBuilt? && !s.init.end.proxy }

  /** A direct connection, made or under way, leads to a peer of `who`, and its stream says so. */
  predicate DirectTo(c: Setup, s: State, who: set<PeerId>) {
    && (s.init.WaitingForStream? ==> s.init.connected in who)
    && (BuiltDirectly(s) ==> var peer := s.init.end.peer;
          peer in who && s.init.end == StreamEnd(peer, false, Handle(peer, c.initiator, c.direct, false)))
  }

  lemma OnlyInitiatorMoves(c: Setup, s: State, e: Event)
    ensures BuildProtocol.Step(c, s, e).init == StepInitiator(c, s, e).init
  {
    hide StepInitiator;
  }

  lemma DirectStep(c: Setup, s: State, e: Event, who: set<PeerId>)
    requires DirectTo(c, s, who) && (e.Connects? ==> e.peer in who)
    ensures DirectTo(c, BuildProtocol.Step(c, s, e), who)
  {
    hide BuildProtocol.Step;
    OnlyInitiatorMoves(c, s, e);
  }

  lemma {:induction false} DirectRun(c: Setup, s: State, events: seq<Event>, who: set<PeerId>)
    requires DirectTo(c, s, who) && AnsweredBy(events, who)
    ensures DirectTo(c, BuildProtocol.Run(c, s, events), who)
    decreases |events|
  {
    hide BuildProtocol.Step, DirectTo;
    if events != [] {
      assert events[0] in events;
      DirectStep(c, s, events[0], who);
      DirectRun(c, BuildProtocol.Step(c, s, events[0]), events[1..], who);
    }
  }

  /** In every run a direct result leads to a peer that answered, and names that peer in stream and handle. */
  lemma DirectResultNamesConnectedPeer(c: Setup, events: seq<Event>, who: set<PeerId>)
    requires AnsweredBy(events, who)
    ensures var s := BuildProtocol.Run(c, START, events);
      BuiltDirectly(s) ==> var peer := s.init.end.peer;
        peer in who && s.init.end == StreamEnd(peer, false, Handle(peer, c.initiator, c.direct, false))
  {
    DirectRun(c, START, events, who);
  }

  /** Whoever answers first becomes the direct result. */
  lemma AnswererIsAccepted(c: Setup, s: State, peer: PeerId)
    requires s.init.WaitingForConnection?
    ensures var s' := BuildProtocol.Run(c, s, [Connects(peer), StreamOpens]); BuiltDirectly(s') && s'.init.end.peer == peer
  {
    var s1 := BuildProtocol.Step(c, s, Connects(peer));
    var s2 := BuildProtocol.Step(c, s1, StreamOpens);
    assert BuildProtocol.Run(c, s, [Connects(peer), StreamOpens]) == s2 by {
      hide BuildProtocol.Step;
      assert [Connects(peer), StreamOpens][1..] == [StreamOpens] && [StreamOpens][1..] == [];
    }
  }

  /**
   The direct path never compares the peer it reached with the peer that was asked for: once connecting,
   every direct result is the requested peer exactly if nobody else answers at the addresses.
   */
  lemma DirectResultIsRequestedIff(c: Setup, s: State, who: set<PeerId>)
    requires s.init.WaitingForConnection?
    ensures (forall events :: AnsweredBy(events, who) && BuiltDirectly(BuildProtocol.Run(c, s, events)) ==>
              BuildProtocol.Run(c, s, events).init.end.peer == c.remote)
      <==> (forall p :: p in who ==> p == c.remote)
  {
    hide BuildProtocol.Run;
    if forall p :: p in who ==> p == c.remote {
      forall events | AnsweredBy(events, who) && BuiltDirectly(BuildProtocol.Run(c, s, events))
        ensures BuildProtocol.Run(c, s, events).init.end.peer == c.remote
      {
        DirectRun(c, s, events, who);
      }
    } else {
      var p :| p in who && p != c.remote;
      AnswererIsAccepted(c, s, p);
      assert AnsweredBy([Connects(p), StreamOpens], who);
    }
  }
}
