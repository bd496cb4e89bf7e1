/**
 The connection-building protocol cannot get stuck: as long as no hop was closed and no party gave up, some
 continuation of the run ends with the control stream handed over.
 */
module BuildProgress {
  import opened Common
  import opened Framing
  import opened Transport
  import PR = ProtocolReader
  import opened RelayLine
  import opened Messages
  import opened Streams
  import opened BuildProtocol
  import opened BuildSafety

  predicate Working(c: Setup, s: State) { After(c, s) && s.relay.Splicing? && Open(s.im) && Open(s.mi) }

  /** The relay has not reached the remote, and no hop was closed. */
  predicate Early(c: Setup, s: State) {
    && Before(c, s) && Open(s.im) && Open(s.mi)
    && (s.init.WaitingForProxyStream? || s.init.WaitingForInternetAddressInformation?)
    && (s.relay.AwaitingHello? || s.relay.Opening?)
  }

  /** No party has given up on the control stream, and no hop was closed. */
  predicate Hopeful(s: State) {
    && Open(s.im) && Open(s.mi) && !s.relay.Gone?
    && !s.init.PeerToPeerError? && (s.init.ConnectionBuilt? ==> s.init.end.proxy)
    && (s.remote.Absent? || s.remote.Incoming? || s.remote.Building? || s.remote.Passed?)
  }

  lemma RunOne(c: Setup, s: State, e: Event)
    ensures BuildProtocol.Run(c, s, [e]) == BuildProtocol.Step(c, s, e)
  {
    assert [e][1..] == [];
  }

  lemma RunTwo(c: Setup, s: State, e: Event, f: Event)
    ensures BuildProtocol.Run(c, s, [e, f]) == BuildProtocol.Step(c, BuildProtocol.Step(c, s, e), f)
  {
    assert [e, f][1..] == [f];
    RunOne(c, BuildProtocol.Step(c, s, e), f);
  }

  // ---------- Moving bytes ----------

  lemma StepsForwardToRemote(c: Setup, s: State) returns (events: seq<Event>)
    requires s.relay.Splicing? && Open(s.im)
    ensures BuildProtocol.Run(c, s, events) == s.(im := ForwardAll(s.im))
  {
    events := [ForwardsToRemote(0), ForwardsToRemote(|Forward(s.im, 0).up.io.wire|)];
    RunTwo(c, s, events[0], events[1]);
  }

  lemma StepsForwardToInitiator(c: Setup, s: State) returns (events: seq<Event>)
    requires s.relay.Splicing? && Open(s.mi)
    ensures BuildProtocol.Run(c, s, events) == s.(mi := ForwardAll(s.mi))
  {
    events := [ForwardsToInitiator(0), ForwardsToInitiator(|Forward(s.mi, 0).up.io.wire|)];
    RunTwo(c, s, events[0], events[1]);
  }

  lemma StepsFillRemote(c: Setup, s: State) returns (events: seq<Event>)
    requires s.remote.Incoming? || s.remote.Building?
    ensures BuildProtocol.Run(c, s, events) == s.(im := FillAll(s.im))
  {
    var n := |s.im.down.io.Undelivered()|;
    var m := |FillDown(s.im, 0, n).down.io.wire|;
    events := [RemoteFill(0, n), RemoteFill(m, m)];
    RunTwo(c, s, events[0], events[1]);
  }

  lemma StepsFillInitiator(c: Setup, s: State) returns (events: seq<Event>)
    requires InitListens(s.init)
    ensures BuildProtocol.Run(c, s, events) == s.(mi := FillAll(s.mi))
  {
    var n := |s.mi.down.io.Undelivered()|;
    var m := |FillDown(s.mi, 0, n).down.io.wire|;
    events := [InitFill(0, n), InitFill(m, m)];
    RunTwo(c, s, events[0], events[1]);
  }

  /** Everything on the way to the remote reaches its decoder. */
  lemma PumpsToRemote(c: Setup, s: State) returns (events: seq<Event>, im: Line)
    requires c.Valid() && Working(c, s) && (s.remote.Incoming? || s.remote.Building?)
    ensures BuildProtocol.Run(c, s, events) == s.(im := im) && Pumped(im) && Same(s.im, im) && Working(c, s.(im := im))
  {
    hide BuildProtocol.Run;
    var e1 := StepsForwardToRemote(c, s);
    var s1 := s.(im := ForwardAll(s.im));
    ForwardAllKeeps(s.im);
    var e2 := StepsFillRemote(c, s1);
    FillAllKeeps(s1.im);
    events, im := e1 + e2, FillAll(s1.im);
    RunAppend(c, s, e1, e2);
    assert s1.(im := im) == s.(im := im);
    ReplaceLines(c, s, im, s.mi);
  }

  /** Everything on the way to the initiator reaches its decoder. */
  lemma PumpsToInitiator(c: Setup, s: State) returns (events: seq<Event>, mi: Line)
    requires c.Valid() && Working(c, s) && InitListens(s.init)
    ensures BuildProtocol.Run(c, s, events) == s.(mi := mi) && Pumped(mi) && Same(s.mi, mi) && Working(c, s.(mi := mi))
  {
    hide BuildProtocol.Run;
    var e1 := StepsForwardToInitiator(c, s);
    var s1 := s.(mi := ForwardAll(s.mi));
    ForwardAllKeeps(s.mi);
    var e2 := StepsFillInitiator(c, s1);
    FillAllKeeps(s1.mi);
    events, mi := e1 + e2, FillAll(s1.mi);
    RunAppend(c, s, e1, e2);
    assert s1.(mi := mi) == s.(mi := mi);
    ReplaceLines(c, s, s.im, mi);
  }

  // ---------- One message further ----------

  /** What a pumped line yields is the next message. */
  lemma YieldsMessage<M>(codec: Codec<M>, l: Line)
    requires Pumped(l) && l.taken < |l.ctrl| && codec.decode(l.ctrl[l.taken]).Some?
    ensures var (l', got) := TakeAs(codec, l);
      got == Message(codec.decode(l.ctrl[l.taken]).value) && l' == l.(down := l'.down, taken := l.taken + 1)
  {
    PumpedLineYields(l);
  }

  /** With a frame still to come, the remote can take it. */
  lemma RemoteAdvances(c: Setup, s: State, interfaces: seq<Address>) returns (events: seq<Event>)
    requires c.Valid() && Working(c, s) && Fits(c, interfaces, c.seenRemote) && s.im.taken < |s.im.ctrl|
    requires s.remote.Incoming? || s.remote.Building?
    ensures var s' := BuildProtocol.Run(c, s, events);
      && Working(c, s') && s'.init == s.init && s'.im.ctrl == s.im.ctrl && s'.im.taken == s.im.taken + 1
      && (s'.remote.Building? || s'.remote.Passed?)
  {
    hide BuildProtocol.Run, Line.Flowing;
    var pump, im := PumpsToRemote(c, s);
    var s1 := s.(im := im);
    var e := if s.remote.Incoming? then RemoteHello else RemotePoll(interfaces);
    if s.remote.Incoming? { YieldsMessage(c.hello, im); } else { YieldsMessage(c.build, im); }
    RemoteStep(c, s1, interfaces);
    RunOne(c, s1, e);
    events := pump + [e];
    RunAppend(c, s, pump, [e]);
  }

  lemma RemoteStep(c: Setup, s: State, interfaces: seq<Address>)
    requires c.Valid() && Working(c, s) && Fits(c, interfaces, c.seenRemote) && Pumped(s.im) && s.im.taken < |s.im.ctrl|
    requires s.remote.Incoming? || s.remote.Building?
    ensures var s' := BuildProtocol.Step(c, s, if s.remote.Incoming? then RemoteHello else RemotePoll(interfaces));
      && Working(c, s') && s'.init == s.init && s'.im.ctrl == s.im.ctrl && s'.im.taken == s.im.taken + 1
      && (s'.remote.Building? || s'.remote.Passed?)
  {
    hide Line.Flowing, After, Pumped, RemotePollsHello, RemotePolls;
    if s.remote.Incoming? { RemoteHelloStep(c, s); } else { RemoteBuildStep(c, s, interfaces); }
  }

  lemma RemoteHelloStep(c: Setup, s: State)
    requires c.Valid() && Working(c, s) && Pumped(s.im) && s.remote.Incoming?
    ensures var s' := RemotePollsHello(c, s);
      && Working(c, s') && s'.init == s.init && s'.im.ctrl == s.im.ctrl && s'.im.taken == s.im.taken + 1
      && s'.remote.Building?
  {
    hide Line.Flowing;
    YieldsMessage(c.hello, s.im);
    RemotePollsHelloKeeps(c, s);
  }

  lemma RemoteBuildStep(c: Setup, s: State, interfaces: seq<Address>)
    requires c.Valid() && Working(c, s) && Fits(c, interfaces, c.seenRemote) && Pumped(s.im) && s.im.taken < |s.im.ctrl|
    requires s.remote.Building?
    ensures var s' := RemotePolls(c, s, interfaces);
      && Working(c, s') && s'.init == s.init && s'.im.ctrl == s.im.ctrl && s'.im.taken == s.im.taken + 1
      && (s'.remote.Building? || s'.remote.Passed?)
  {
    hide Line.Flowing;
    RemotePollsKeeps(c, s, interfaces);
    RemoteMoves(c, s, interfaces);
    hide RemotePolls, After, Pumped;
  }

  lemma RemoteMoves(c: Setup, s: State, interfaces: seq<Address>)
    requires c.Valid() && Working(c, s) && Fits(c, interfaces, c.seenRemote) && Pumped(s.im) && s.im.taken < |s.im.ctrl|
    requires s.remote.Building?
    ensures var s' := RemotePolls(c, s, interfaces);
      && s'.relay == s.relay && Open(s'.im) && Open(s'.mi)
      && s'.init == s.init && s'.im.ctrl == s.im.ctrl && s'.im.taken == s.im.taken + 1
      && (s'.remote.Building? || s'.remote.Passed?)
  {
    hide Line.Flowing;
    YieldsMessage(c.build, s.im);
    hide Pumped, TakeDown;
  }

  /** The remote takes every frame that was sent so far. */
  lemma {:induction false} RemoteCatchesUp(c: Setup, s: State, interfaces: seq<Address>) returns (events: seq<Event>)
    requires c.Valid() && Working(c, s) && Fits(c, interfaces, c.seenRemote)
    requires s.remote.Incoming? || s.remote.Building? || s.remote.Passed?
    ensures var s' := BuildProtocol.Run(c, s, events);
      && Working(c, s') && s'.init == s.init && s'.im.ctrl == s.im.ctrl && s'.im.taken == |s.im.ctrl|
      && (s'.remote.Incoming? || s'.remote.Building? || s'.remote.Passed?)
    decreases |s.im.ctrl| - s.im.taken
  {
    hide Line.Flowing;
    if s.im.taken == |s.im.ctrl| {
      events := [];
    } else {
      var first := RemoteAdvances(c, s, interfaces);
      var s1 := BuildProtocol.Run(c, s, first);
      var rest := RemoteCatchesUp(c, s1, interfaces);
      events := first + rest;
      RunAppend(c, s, first, rest);
    }
  }

  /** The initiator takes its internet address and sends its own addresses. */
  lemma InitiatorLearnsAddress(c: Setup, s: State, interfaces: seq<Address>) returns (events: seq<Event>)
    requires c.Valid() && Working(c, s) && Fits(c, interfaces, c.seenInitiator) && s.init.WaitingForInternetAddressInformation?
    ensures var s' := BuildProtocol.Run(c, s, events);
      Working(c, s') && s'.init.WaitingForExchangeAddressInformation? && s'.remote == s.remote
  {
    hide BuildProtocol.Run, Line.Flowing;
    var pump, mi := PumpsToInitiator(c, s);
    var s1 := s.(mi := mi);
    YieldsMessage(c.build, mi);
    InitPollsInternetAddressKeeps(c, s1, interfaces);
    var e := PollsInternetAddress(interfaces);
    assert BuildProtocol.Step(c, s1, e) == InitPollsInternetAddress(c, s1, interfaces);
    RunOne(c, s1, e);
    events := pump + [e];
    RunAppend(c, s, pump, [e]);
  }

  /** Once the remote has answered, the initiator learns the addresses. */
  lemma InitiatorLearnsPeer(c: Setup, s: State) returns (events: seq<Event>)
    requires c.Valid() && Working(c, s) && s.init.WaitingForExchangeAddressInformation? && |s.mi.ctrl| == 2
    ensures var s' := BuildProtocol.Run(c, s, events); Working(c, s') && s'.init.WaitingForConnection? && s'.remote == s.remote
  {
    hide BuildProtocol.Run, Line.Flowing;
    var pump, mi := PumpsToInitiator(c, s);
    var s1 := s.(mi := mi);
    YieldsMessage(c.build, mi);
    InitPollsExchangeKeeps(c, s1);
    assert BuildProtocol.Step(c, s1, PollsExchange) == InitPollsExchange(c, s1);
    RunOne(c, s1, PollsExchange);
    events := pump + [PollsExchange];
    RunAppend(c, s, pump, [PollsExchange]);
  }

  /** From any moment after the exchange the initiator can fall back to the proxy stream. */
  lemma InitiatorFallsBack(c: Setup, s: State) returns (events: seq<Event>)
    requires c.Valid() && Working(c, s)
    requires s.init.WaitingForConnection? || s.init.WaitingForStream? || s.init.ProxyStream?
    ensures var s' := BuildProtocol.Run(c, s, events); Working(c, s') && InitProxied(s') && s'.remote == s.remote
  {
    hide Line.Flowing;
    var s1 := s.(init := ProxyStream);
    var e := if s.init.WaitingForConnection? then NoConnection else StreamFails;
    assert BuildProtocol.Step(c, s, e) == s1;
    InitProxiesKeeps(c, s1);
    assert BuildProtocol.Step(c, s1, Proxies) == InitProxies(c, s1);
    events := [e, Proxies];
    RunTwo(c, s, e, Proxies);
  }

  // ---------- Main results ----------

  /** The remaining frames lead to the handover once the initiator has its proxied stream. */
  lemma RemoteFinishes(c: Setup, s: State, interfaces: seq<Address>) returns (events: seq<Event>)
    requires c.Valid() && Working(c, s) && Fits(c, interfaces, c.seenRemote) && InitProxied(s)
    requires s.remote.Incoming? || s.remote.Building? || s.remote.Passed?
    ensures BuildProtocol.Run(c, s, events).remote.Passed?
  {
    hide BuildProtocol.Run, Line.Flowing;
    events := RemoteCatchesUp(c, s, interfaces);
  }

  /** The remote answers and the initiator starts to connect. */
  lemma ExchangeCompletes(c: Setup, s: State, interfaces: seq<Address>) returns (events: seq<Event>)
    requires c.Valid() && Working(c, s) && Fits(c, interfaces, c.seenRemote) && s.init.WaitingForExchangeAddressInformation?
    requires s.remote.Incoming? || s.remote.Building?
    ensures var s' := BuildProtocol.Run(c, s, events);
      Working(c, s') && s'.init.WaitingForConnection? && (s'.remote.Building? || s'.remote.Passed?)
  {
    hide BuildProtocol.Run, Line.Flowing;
    var e1 := RemoteCatchesUp(c, s, interfaces);
    var s1 := BuildProtocol.Run(c, s, e1);
    var e2 := InitiatorLearnsPeer(c, s1);
    RunAppend(c, s, e1, e2);
    events := e1 + e2;
  }

  /** From the exchange of addresses on. */
  lemma ExchangeFinishes(c: Setup, s: State, interfaces: seq<Address>) returns (events: seq<Event>)
    requires c.Valid() && Working(c, s) && Fits(c, interfaces, c.seenRemote) && s.init.WaitingForExchangeAddressInformation?
    requires s.remote.Incoming? || s.remote.Building?
    ensures BuildProtocol.Run(c, s, events).remote.Passed?
  {
    hide BuildProtocol.Run, Line.Flowing;
    var e1 := ExchangeCompletes(c, s, interfaces);
    var s1 := BuildProtocol.Run(c, s, e1);
    var e2 := InitiatorFallsBack(c, s1);
    var s2 := BuildProtocol.Run(c, s1, e2);
    var e3 := RemoteFinishes(c, s2, interfaces);
    RunAppend(c, s1, e2, e3);
    RunAppend(c, s, e1, e2 + e3);
    events := e1 + (e2 + e3);
  }

  /** Once the relay splices. */
  lemma WorkingFinishes(c: Setup, s: State, initInterfaces: seq<Address>, remoteInterfaces: seq<Address>)
    returns (events: seq<Event>)
    requires c.Valid() && Working(c, s) && Hopeful(s)
    requires Fits(c, initInterfaces, c.seenInitiator) && Fits(c, remoteInterfaces, c.seenRemote)
    ensures BuildProtocol.Run(c, s, events).remote.Passed?
  {
    hide BuildProtocol.Run, Line.Flowing;
    if s.init.ConnectionBuilt? {
      events := RemoteFinishes(c, s, remoteInterfaces);
    } else if s.init.WaitingForInternetAddressInformation? {
      var e1 := InitiatorLearnsAddress(c, s, initInterfaces);
      var e2 := ExchangeFinishes(c, BuildProtocol.Run(c, s, e1), remoteInterfaces);
      RunAppend(c, s, e1, e2);
      events := e1 + e2;
    } else if s.init.WaitingForExchangeAddressInformation? {
      events := ExchangeFinishes(c, s, remoteInterfaces);
    } else {
      var e1 := InitiatorFallsBack(c, s);
      var e2 := RemoteFinishes(c, BuildProtocol.Run(c, s, e1), remoteInterfaces);
      RunAppend(c, s, e1, e2);
      events := e1 + e2;
    }
  }

  // ---------- Before the relay splices ----------

  /** The reader's buffer takes the overflow, then everything on the wire. */
  function Filled(r: PR.Reader): PR.Reader {
    var r1 := PR.Fill(r, 0, |r.io.Undelivered()|);
    PR.Fill(r1, |r1.io.wire|, |r1.io.wire|)
  }

  lemma FilledHoldsAll(r: PR.Reader)
    requires r.Valid()
    ensures var r' := Filled(r); r'.Valid() && r'.io.Undelivered() == [] && r'.Ahead() == r.Ahead()
  {
    var n := |r.io.Undelivered()|;
    PR.FillConserves(r, 0, n);
    var r1 := PR.Fill(r, 0, n);
    assert r1.io.overflow.None?;
    PR.FillConserves(r1, |r1.io.wire|, |r1.io.wire|);
  }

  lemma FilledIsEarly(c: Setup, s: State)
    requires Early(c, s) && s.relay.AwaitingHello?
    ensures var s' := s.(im := s.im.(up := Filled(s.im.up))); Early(c, s') && s'.im.up.io.Undelivered() == []
  {
    FilledHoldsAll(s.im.up);
    hide Filled, Held, Line.Flowing;
  }

  lemma StepsFillRelay(c: Setup, s: State) returns (events: seq<Event>)
    requires s.relay.AwaitingHello?
    ensures BuildProtocol.Run(c, s, events) == s.(im := s.im.(up := Filled(s.im.up)))
  {
    var n := |s.im.up.io.Undelivered()|;
    var m := |PR.Fill(s.im.up, 0, n).io.wire|;
    events := [RelayFill(0, n), RelayFill(m, m)];
    RunTwo(c, s, events[0], events[1]);
  }

  /** The initiator has opened its stream. */
  lemma InitiatorOpens(c: Setup, s: State) returns (events: seq<Event>)
    requires c.Valid() && Early(c, s)
    ensures var s' := BuildProtocol.Run(c, s, events); Early(c, s') && s'.init.WaitingForInternetAddressInformation?
  {
    hide Line.Flowing;
    if s.init.WaitingForProxyStream? {
      events := [Opens];
      RunOne(c, s, Opens);
      InitOpensKeeps(c, s);
      assert BuildProtocol.Step(c, s, Opens) == InitOpens(c, s);
    } else {
      events := [];
    }
  }

  /** A relay that holds the whole hello takes it. */
  lemma RelayTakesHello(c: Setup, s: State)
    requires c.Valid() && Early(c, s) && s.relay.AwaitingHello? && s.init.WaitingForInternetAddressInformation?
    requires s.im.up.io.Undelivered() == []
    ensures var s' := RelayPollsHello(c, s); Early(c, s') && s'.relay.Opening? && s'.init == s.init
  {
    hide Line.Flowing;
    RelayPollsHelloKeeps(c, s);
    var payload := c.hello.encode(ProxyBuildConnectionToPeer(c.remote));
    assert Held(s.im.up.dec) == s.im.up.Ahead() == Frame(payload) + [];
    DecodeWholeFrame(s.im.up.dec, payload, []);
  }

  /** The hello reaches the relay, whatever part of it has arrived. */
  lemma HelloArrives(c: Setup, s: State) returns (events: seq<Event>)
    requires c.Valid() && Early(c, s) && s.init.WaitingForInternetAddressInformation?
    ensures var s' := BuildProtocol.Run(c, s, events);
      Early(c, s') && s'.init.WaitingForInternetAddressInformation? && s'.relay.Opening?
  {
    hide BuildProtocol.Run, Line.Flowing;
    if s.relay.Opening? {
      events := [];
      RunNone(c, s);
    } else {
      var fill := StepsFillRelay(c, s);
      var s1 := s.(im := s.im.(up := Filled(s.im.up)));
      FilledIsEarly(c, s);
      hide Filled, Before, RelayPollsHello;
      RelayTakesHello(c, s1);
      assert BuildProtocol.Step(c, s1, RelayPolls) == RelayPollsHello(c, s1);
      RunOne(c, s1, RelayPolls);
      events := fill + [RelayPolls];
      RunAppend(c, s, fill, [RelayPolls]);
    }
  }

  lemma RunNone(c: Setup, s: State)
    ensures BuildProtocol.Run(c, s, []) == s
  {
  }

  /** From every state before that, the relay can reach the remote. */
  lemma RelayCanJoin(c: Setup, s: State) returns (events: seq<Event>)
    requires c.Valid() && Early(c, s)
    ensures var s' := BuildProtocol.Run(c, s, events);
      Working(c, s') && s'.init.WaitingForInternetAddressInformation? && s'.remote.Incoming?
  {
    hide BuildProtocol.Run, Line.Flowing;
    var e1 := InitiatorOpens(c, s);
    var s1 := BuildProtocol.Run(c, s, e1);
    var e2 := HelloArrives(c, s1);
    var s2 := BuildProtocol.Run(c, s1, e2);
    RelayOpensWorking(c, s2);
    RunOne(c, s2, RelayOpened);
    RunAppend(c, s1, e2, [RelayOpened]);
    RunAppend(c, s, e1, e2 + [RelayOpened]);
    events := e1 + (e2 + [RelayOpened]);
  }

  lemma RelayOpensWorking(c: Setup, s: State)
    requires c.Valid() && Early(c, s) && s.relay.Opening? && s.init.WaitingForInternetAddressInformation?
    ensures var s' := BuildProtocol.Step(c, s, RelayOpened);
      Working(c, s') && s'.init == s.init && s'.remote.Incoming?
  {
    hide Line.Flowing;
    JoinedFrames(c);
    RelayOpensKeeps(c, s);
    hide ImFrames, MiFrames, Sendable;
    assert BuildProtocol.Step(c, s, RelayOpened) == RelayOpens(c, s);
  }

  /** In no run is there a dead end, as long as the hops are open and nobody has given up. */
  lemma HandoverStaysPossible(c: Setup, events: seq<Event>, initInterfaces: seq<Address>, remoteInterfaces: seq<Address>)
    returns (more: seq<Event>)
    requires c.Valid() && Hopeful(BuildProtocol.Run(c, START, events))
    requires Fits(c, initInterfaces, c.seenInitiator) && Fits(c, remoteInterfaces, c.seenRemote)
    ensures BuildProtocol.Run(c, START, events + more).remote.Passed?
  {
    hide BuildProtocol.Run, Line.Flowing;
    Reached(c, events);
    var s := BuildProtocol.Run(c, START, events);
    if s.remote.Absent? {
      var e1 := RelayCanJoin(c, s);
      var e2 := WorkingFinishes(c, BuildProtocol.Run(c, s, e1), initInterfaces, remoteInterfaces);
      RunAppend(c, s, e1, e2);
      more := e1 + e2;
    } else {
      more := WorkingFinishes(c, s, initInterfaces, remoteInterfaces);
    }
    RunAppend(c, START, events, more);
  }

  /** The handover happens in some run, whatever the peers, their addresses and the codecs are. */
  lemma HandoverIsReachable(c: Setup, initInterfaces: seq<Address>, remoteInterfaces: seq<Address>)
    returns (events: seq<Event>)
    requires c.Valid() && Fits(c, initInterfaces, c.seenInitiator) && Fits(c, remoteInterfaces, c.seenRemote)
    ensures BuildProtocol.Run(c, START, events).remote.Passed?
  {
    RunNone(c, START);
    events := HandoverStaysPossible(c, [], initInterfaces, remoteInterfaces);
    assert [] + events == events;
  }

  /** Any peer at all can become the direct result of a run, also one that was not asked for. */
  lemma AnyPeerCanBeTheResult(c: Setup, peer: PeerId, initInterfaces: seq<Address>, remoteInterfaces: seq<Address>)
    returns (events: seq<Event>)
    requires c.Valid() && Fits(c, initInterfaces, c.seenInitiator) && Fits(c, remoteInterfaces, c.seenRemote)
    ensures var s := BuildProtocol.Run(c, START, events); BuiltDirectly(s) && s.init.end.peer == peer
  {
    hide BuildProtocol.Run, Line.Flowing;
    StartHolds(c);
    var e1 := RelayCanJoin(c, START);
    var s1 := BuildProtocol.Run(c, START, e1);
    var e2 := InitiatorLearnsAddress(c, s1, initInterfaces);
    var s2 := BuildProtocol.Run(c, s1, e2);
    var e3 := ExchangeCompletes(c, s2, remoteInterfaces);
    var s3 := BuildProtocol.Run(c, s2, e3);
    AnswererIsAccepted(c, s3, peer);
    var e4 := [Connects(peer), StreamOpens];
    RunAppend(c, s2, e3, e4);
    RunAppend(c, s1, e2, e3 + e4);
    RunAppend(c, START, e1, e2 + (e3 + e4));
    events := e1 + (e2 + (e3 + e4));
  }

  // ---------- User bytes ----------

  /** The reader takes the overflow, then everything on the wire. */
  function ReadAll(l: Line): Line {
    var l1 := PollDown(l, 0);
    PollDown(l1, |l1.down.io.wire|)
  }

  lemma ReadAllCompletes(l: Line)
    requires l.Valid() && Open(l) && l.taken == |l.ctrl| && l.down.Bare() && l.up.Ahead() == []
    ensures ReadAll(l).delivered == ReadAll(l).user == l.user
  {
    PollDownKeeps(l, 0);
    var l1 := PollDown(l, 0);
    PollDownKeeps(l1, |l1.down.io.wire|);
    DrainedLineIsComplete(ReadAll(l));
  }

  lemma StepsReadRemote(c: Setup, s: State) returns (events: seq<Event>)
    requires s.remote.Passed?
    ensures BuildProtocol.Run(c, s, events) == s.(im := ReadAll(s.im))
  {
    events := [RemotePollsBytes(0), RemotePollsBytes(|PollDown(s.im, 0).down.io.wire|)];
    RunTwo(c, s, events[0], events[1]);
  }

  lemma StepsReadInitiator(c: Setup, s: State) returns (events: seq<Event>)
    requires InitProxied(s)
    ensures BuildProtocol.Run(c, s, events) == s.(mi := ReadAll(s.mi))
  {
    events := [InitPollsBytes(0), InitPollsBytes(|PollDown(s.mi, 0).down.io.wire|)];
    RunTwo(c, s, events[0], events[1]);
  }

  /** What the initiator's user has written can reach the remote's user. */
  lemma RemoteReadsAll(c: Setup, s: State) returns (events: seq<Event>, im: Line)
    requires s.relay.Splicing? && s.remote.Passed? && Open(s.im)
    requires s.im.Valid() && s.im.taken == |s.im.ctrl| && s.im.down.Bare()
    ensures BuildProtocol.Run(c, s, events) == s.(im := im) && im.delivered == im.user == s.im.user
  {
    hide BuildProtocol.Run, Line.Flowing;
    var e1 := StepsForwardToRemote(c, s);
    ForwardAllKeeps(s.im);
    var s1 := s.(im := ForwardAll(s.im));
    var e2 := StepsReadRemote(c, s1);
    ReadAllCompletes(s1.im);
    events, im := e1 + e2, ReadAll(s1.im);
    RunAppend(c, s, e1, e2);
  }

  /** What the remote's user has written can reach the initiator's user. */
  lemma InitiatorReadsAll(c: Setup, s: State) returns (events: seq<Event>, mi: Line)
    requires s.relay.Splicing? && InitProxied(s) && Open(s.mi)
    requires s.mi.Valid() && s.mi.taken == |s.mi.ctrl| && s.mi.down.Bare()
    ensures BuildProtocol.Run(c, s, events) == s.(mi := mi) && mi.delivered == mi.user == s.mi.user
  {
    hide BuildProtocol.Run, Line.Flowing;
    var e1 := StepsForwardToInitiator(c, s);
    ForwardAllKeeps(s.mi);
    var s1 := s.(mi := ForwardAll(s.mi));
    var e2 := StepsReadInitiator(c, s1);
    ReadAllCompletes(s1.mi);
    events, mi := e1 + e2, ReadAll(s1.mi);
    RunAppend(c, s, e1, e2);
  }

  /** After a handover, while the hops are open, all that both users wrote can still be read by the other one. */
  lemma DeliveryStaysPossible(c: Setup, events: seq<Event>) returns (more: seq<Event>)
    requires c.Valid()
    requires var s := BuildProtocol.Run(c, START, events);
      s.remote.Passed? && s.relay.Splicing? && Open(s.im) && Open(s.mi)
    ensures var s, s' := BuildProtocol.Run(c, START, events), BuildProtocol.Run(c, START, events + more);
      s'.im.delivered == s.im.user == s'.im.user && s'.mi.delivered == s.mi.user == s'.mi.user
  {
    hide BuildProtocol.Run, Line.Flowing;
    Reached(c, events);
    var s := BuildProtocol.Run(c, START, events);
    var e1, im := RemoteReadsAll(c, s);
    var s1 := s.(im := im);
    var e2, mi := InitiatorReadsAll(c, s1);
    more := e1 + e2;
    RunAppend(c, s, e1, e2);
    RunAppend(c, START, events, more);
  }

  // ---------- Closed hops ----------

  lemma FillAllIsFilled(l: Line)
    requires l.down.Valid()
    ensures FillAll(l) == l.(down := Filled(l.down)) && FillAll(l).down.io.Undelivered() == []
  {
    FilledHoldsAll(l.down);
  }

  lemma ReadersAreValid(c: Setup, s: State)
    requires Inv(c, s)
    ensures s.mi.down.Valid() && s.im.down.Valid()
  {
  }

  /** An initiator that waits for a message notices by its own polls that its hop was closed, and fails. */
  lemma InitiatorNoticesClosedHop(c: Setup, events: seq<Event>) returns (more: seq<Event>)
    requires c.Valid()
    requires var s := BuildProtocol.Run(c, START, events); InitListens(s.init) && s.mi.downClosed
    ensures var s, s' := BuildProtocol.Run(c, START, events), BuildProtocol.Run(c, START, events + more);
      && s'.init == PeerToPeerError(StreamClosed)
      && s'.relay == s.relay && s'.remote == s.remote && s'.im.downClosed == s.im.downClosed
  {
    hide BuildProtocol.Run, Inv, Line.Flowing;
    Reached(c, events);
    var s := BuildProtocol.Run(c, START, events);
    ReadersAreValid(c, s);
    var fill := StepsFillInitiator(c, s);
    var s1 := s.(mi := FillAll(s.mi));
    FillAllIsFilled(s.mi);
    hide FillAll, Filled;
    RunOne(c, s1, InitAtEnd);
    more := fill + [InitAtEnd];
    RunAppend(c, s, fill, [InitAtEnd]);
    RunAppend(c, START, events, more);
  }

  /** A remote that waits for a message notices it, too, and ends without handing over. */
  lemma RemoteNoticesClosedHop(c: Setup, events: seq<Event>) returns (more: seq<Event>)
    requires c.Valid()
    requires var s := BuildProtocol.Run(c, START, events);
      (s.remote.Incoming? || s.remote.Building?) && s.im.downClosed
    ensures var s, s' := BuildProtocol.Run(c, START, events), BuildProtocol.Run(c, START, events + more);
      s'.remote == Finished && s'.init == s.init && s'.relay == s.relay
  {
    hide BuildProtocol.Run, Inv, Line.Flowing;
    Reached(c, events);
    var s := BuildProtocol.Run(c, START, events);
    ReadersAreValid(c, s);
    var fill := StepsFillRemote(c, s);
    var s1 := s.(im := FillAll(s.im));
    FillAllIsFilled(s.im);
    hide FillAll, Filled;
    RunOne(c, s1, RemoteAtEnd);
    more := fill + [RemoteAtEnd];
    RunAppend(c, s, fill, [RemoteAtEnd]);
    RunAppend(c, START, events, more);
  }

  /** When the relay stops, an initiator that waits for a message fails, and a remote that waits for one ends. */
  lemma RelayStopEndsWaiting(c: Setup, events: seq<Event>) returns (more: seq<Event>)
    requires c.Valid() && InitListens(BuildProtocol.Run(c, START, events).init)
    ensures var s, s' := BuildProtocol.Run(c, START, events), BuildProtocol.Run(c, START, events + [RelayStops] + more);
      && s'.init == PeerToPeerError(StreamClosed) && s'.relay.Gone?
      && (s.remote.Incoming? || s.remote.Building? ==> s'.remote == Finished)
  {
    hide BuildProtocol.Run, Line.Flowing;
    var s := BuildProtocol.Run(c, START, events);
    RunAppend(c, START, events, [RelayStops]);
    RunOne(c, s, RelayStops);
    var stopped := events + [RelayStops];
    var s1 := BuildProtocol.Run(c, START, stopped);
    assert s1.init == s.init && s1.remote == s.remote && s1.relay.Gone? && s1.mi.downClosed && s1.im.downClosed;
    var e1 := InitiatorNoticesClosedHop(c, stopped);
    var s2 := BuildProtocol.Run(c, START, stopped + e1);
    more := e1;
    if s.remote.Incoming? || s.remote.Building? {
      var e2 := RemoteNoticesClosedHop(c, stopped + e1);
      assert (stopped + e1) + e2 == stopped + (e1 + e2);
      more := e1 + e2;
    }
  }
}
