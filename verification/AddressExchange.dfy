/**
 Which addresses the two sides learn about each other: exactly the interface addresses that the other side
 sent in some step of the run, followed by the address at which the relay sees it.
 */
module AddressExchange {
  import opened Common
  import opened Framing
  import opened Messages
  import opened RelayLine
  import opened BuildProtocol
  import opened BuildSafety

  // ---------- Where control frames come from ----------

  lemma UserKeepsFrames(s: State, e: Event)
    ensures StepInitiatorUser(s, e).im.ctrl == s.im.ctrl && StepInitiatorUser(s, e).mi.ctrl == s.mi.ctrl
  {
  }

  lemma NetworkKeepsFrames(s: State, e: Event)
    ensures StepNetwork(s, e).im.ctrl == s.im.ctrl && StepNetwork(s, e).mi.ctrl == s.mi.ctrl
  {
  }

  lemma RelayKeepsFrames(c: Setup, s: State, e: Event)
    requires !e.RelayOpened?
    ensures StepRelay(c, s, e).im.ctrl == s.im.ctrl && StepRelay(c, s, e).mi.ctrl == s.mi.ctrl
  {
  }

  lemma RemoteKeepsFrames(c: Setup, s: State, e: Event)
    ensures StepRemote(c, s, e).im.ctrl == s.im.ctrl
    ensures !e.RemotePoll? ==> StepRemote(c, s, e).mi.ctrl == s.mi.ctrl
  {
  }

  lemma InitiatorKeepsFrames(c: Setup, s: State, e: Event)
    ensures StepInitiator(c, s, e).mi.ctrl == s.mi.ctrl
    ensures !e.PollsInternetAddress? && !e.Proxies? ==> StepInitiator(c, s, e).im.ctrl == s.im.ctrl
  {
  }

  /** The four parts that a step runs through. */
  lemma StepParts(c: Setup, s: State, e: Event) returns (s1: State, s2: State, s3: State, s4: State)
    ensures s1 == StepInitiator(c, s, e) && s2 == StepInitiatorUser(s1, e) && s3 == StepRelay(c, s2, e)
    ensures s4 == StepRemote(c, s3, e) && BuildProtocol.Step(c, s, e) == StepNetwork(s4, e)
  {
    hide StepInitiator, StepInitiatorUser, StepRelay, StepRemote, StepNetwork;
    s1 := StepInitiator(c, s, e);
    s2 := StepInitiatorUser(s1, e);
    s3 := StepRelay(c, s2, e);
    s4 := StepRemote(c, s3, e);
  }

  predicate PutsFrames(e: Event) { e.PollsInternetAddress? || e.Proxies? || e.RelayOpened? || e.RemotePoll? }

  /** No other event than these four puts a control frame on a line. */
  lemma OthersKeepFrames(c: Setup, s: State, e: Event)
    requires !PutsFrames(e)
    ensures var s' := BuildProtocol.Step(c, s, e); s'.im.ctrl == s.im.ctrl && s'.mi.ctrl == s.mi.ctrl
  {
    hide StepInitiator, StepInitiatorUser, StepRelay, StepRemote, StepNetwork, BuildProtocol.Step;
    var s1, s2, s3, s4 := StepParts(c, s, e);
    InitiatorKeepsFrames(c, s, e);
    UserKeepsFrames(s1, e);
    RelayKeepsFrames(c, s2, e);
    RemoteKeepsFrames(c, s3, e);
    NetworkKeepsFrames(s4, e);
  }

  lemma InitiatorStep(c: Setup, s: State, interfaces: seq<Address>)
    ensures BuildProtocol.Step(c, s, PollsInternetAddress(interfaces)) == InitPollsInternetAddress(c, s, interfaces)
    ensures BuildProtocol.Step(c, s, Proxies) == InitProxies(c, s)
  {
    hide InitPollsInternetAddress, InitProxies;
  }

  lemma OtherEndStep(c: Setup, s: State, interfaces: seq<Address>)
    ensures BuildProtocol.Step(c, s, RelayOpened) == RelayOpens(c, s)
    ensures BuildProtocol.Step(c, s, RemotePoll(interfaces)) == RemotePolls(c, s, interfaces)
  {
    hide RelayOpens, RemotePolls;
  }

  // ---------- The lists that are sent ----------

  /** The event with which the initiator sends its addresses. */
  predicate InitiatorSends(s: State, e: Event, s': State) {
    e.PollsInternetAddress? && s.init.WaitingForInternetAddressInformation? && s'.init.WaitingForExchangeAddressInformation?
  }

  /** The event with which the remote sends its addresses. */
  predicate RemoteSends(s: State, e: Event, s': State) {
    e.RemotePoll? && s.remote.Building? && |s.mi.ctrl| == 1 && |s'.mi.ctrl| == 2
  }

  /** The third frame to the remote is sent by the initiator, and it lists the interfaces of that event. */
  lemma InitiatorFrameStep(c: Setup, s: State, e: Event)
    requires c.Valid() && Inv(c, s)
    ensures var s' := BuildProtocol.Step(c, s, e);
      |s'.im.ctrl| >= 3 ==>
        if |s.im.ctrl| >= 3 then s'.im.ctrl[2] == s.im.ctrl[2]
        else InitiatorSends(s, e, s') && Listed(c, s'.im.ctrl[2]) == e.interfaces + [c.seenInitiator]
  {
    hide BuildProtocol.Step, InitPollsInternetAddress, InitProxies, RelayOpens, RemotePolls, Inv;
    if e.PollsInternetAddress? {
      InitiatorStep(c, s, e.interfaces);
      InitiatorListStep(c, s, e.interfaces);
    } else if e.Proxies? {
      InitiatorStep(c, s, []);
      ProxiesStep(c, s);
    } else if e.RelayOpened? {
      OtherEndStep(c, s, []);
      RelayOpensStep(c, s);
    } else if e.RemotePoll? {
      OtherEndStep(c, s, e.interfaces);
      RemotePollsKeepsIm(c, s, e.interfaces);
    } else {
      OthersKeepFrames(c, s, e);
    }
  }

  lemma InitiatorListStep(c: Setup, s: State, interfaces: seq<Address>)
    requires c.Valid() && Inv(c, s)
    ensures var s' := InitPollsInternetAddress(c, s, interfaces);
      && s.im.ctrl <= s'.im.ctrl && s'.mi.ctrl == s.mi.ctrl
      && (|s'.im.ctrl| > |s.im.ctrl| ==>
            && |s.im.ctrl| == 2 && s.init.WaitingForInternetAddressInformation?
            && s'.init.WaitingForExchangeAddressInformation?
            && Listed(c, s'.im.ctrl[2]) == interfaces + [c.seenInitiator])
  {
    hide Line.Flowing;
    if s.init.WaitingForInternetAddressInformation? {
      if s.remote.Absent? { NothingToTake(c.build, s.mi); } else { TakeAsExpected(c.build, s.mi); }
    }
  }

  lemma ProxiesStep(c: Setup, s: State)
    requires Inv(c, s)
    ensures var s' := InitProxies(c, s);
      s.im.ctrl <= s'.im.ctrl && s'.mi.ctrl == s.mi.ctrl && (s'.im.ctrl != s.im.ctrl ==> |s.im.ctrl| == 3)
  {
    hide Line.Flowing;
  }

  lemma RelayOpensStep(c: Setup, s: State)
    requires Inv(c, s)
    ensures var s' := RelayOpens(c, s);
      s' == s || (|s'.im.ctrl| <= 2 && |s'.mi.ctrl| <= 1 && |s.im.ctrl| == 0 && |s.mi.ctrl| == 0)
  {
    hide Line.Flowing;
  }

  lemma RemotePollsKeepsIm(c: Setup, s: State, interfaces: seq<Address>)
    ensures RemotePolls(c, s, interfaces).im.ctrl == s.im.ctrl
  {
  }

  /** The second frame to the initiator is sent by the remote, and it lists the interfaces of that event. */
  lemma RemoteFrameStep(c: Setup, s: State, e: Event)
    requires c.Valid() && Inv(c, s)
    ensures var s' := BuildProtocol.Step(c, s, e);
      |s'.mi.ctrl| >= 2 ==>
        if |s.mi.ctrl| >= 2 then s'.mi.ctrl[1] == s.mi.ctrl[1]
        else RemoteSends(s, e, s') && Listed(c, s'.mi.ctrl[1]) == e.interfaces + [c.seenRemote]
  {
    hide BuildProtocol.Step, InitPollsInternetAddress, InitProxies, RelayOpens, RemotePolls, Inv;
    if e.PollsInternetAddress? {
      InitiatorStep(c, s, e.interfaces);
      InitiatorListStep(c, s, e.interfaces);
    } else if e.Proxies? {
      InitiatorStep(c, s, []);
      ProxiesStep(c, s);
    } else if e.RelayOpened? {
      OtherEndStep(c, s, []);
      RelayOpensStep(c, s);
    } else if e.RemotePoll? {
      OtherEndStep(c, s, e.interfaces);
      RemoteListStep(c, s, e.interfaces);
    } else {
      OthersKeepFrames(c, s, e);
    }
  }

  lemma RemoteListStep(c: Setup, s: State, interfaces: seq<Address>)
    requires c.Valid() && Inv(c, s)
    ensures var s' := RemotePolls(c, s, interfaces);
      && s.mi.ctrl <= s'.mi.ctrl
      && (|s'.mi.ctrl| > |s.mi.ctrl| ==>
            && |s.mi.ctrl| == 1 && |s'.mi.ctrl| == 2 && s.remote.Building?
            && Listed(c, s'.mi.ctrl[1]) == interfaces + [c.seenRemote])
  {
    hide Line.Flowing;
    if s.remote.Building? { TakeAsExpected(c.build, s.im); }
  }

  // ---------- Main results ----------

  /** Event k of the run, with the states before and after it, satisfies what is said of it. */
  ghost predicate InitiatorSentAt(c: Setup, events: seq<Event>, k: nat) {
    k < |events| &&
    InitiatorSends(BuildProtocol.Run(c, START, events[..k]), events[k], BuildProtocol.Run(c, START, events[..k + 1]))
  }

  ghost predicate RemoteSentAt(c: Setup, events: seq<Event>, k: nat) {
    k < |events| &&
    RemoteSends(BuildProtocol.Run(c, START, events[..k]), events[k], BuildProtocol.Run(c, START, events[..k + 1]))
  }

  lemma RunSplits(c: Setup, events: seq<Event>)
    requires events != []
    ensures var n := |events| - 1;
      && BuildProtocol.Run(c, START, events) == BuildProtocol.Step(c, BuildProtocol.Run(c, START, events[..n]), events[n])
      && events[..n + 1] == events
  {
    var n := |events| - 1;
    assert events == events[..n] + [events[n]];
    RunAppend(c, START, events[..n], [events[n]]);
    var s := BuildProtocol.Run(c, START, events[..n]);
    assert BuildProtocol.Run(c, s, [events[n]]) == BuildProtocol.Step(c, s, events[n]) by {
      hide BuildProtocol.Step;
      assert [events[n]][1..] == [];
    }
  }

  lemma {:induction false} InitiatorFrameOfRun(c: Setup, events: seq<Event>) returns (k: nat)
    requires c.Valid() && |BuildProtocol.Run(c, START, events).im.ctrl| >= 3
    ensures InitiatorSentAt(c, events, k)
    ensures Listed(c, BuildProtocol.Run(c, START, events).im.ctrl[2]) == events[k].interfaces + [c.seenInitiator]
    decreases |events|
  {
    hide BuildProtocol.Step, Inv, Listed;
    if events == [] { assert false; }
    var n := |events| - 1;
    RunSplits(c, events);
    Reached(c, events[..n]);
    InitiatorFrameStep(c, BuildProtocol.Run(c, START, events[..n]), events[n]);
    hide BuildProtocol.Run;
    if |BuildProtocol.Run(c, START, events[..n]).im.ctrl| >= 3 {
      k := InitiatorFrameOfRun(c, events[..n]);
      assert events[..n][..k] == events[..k] && events[..n][..k + 1] == events[..k + 1] && events[..n][k] == events[k];
    } else {
      k := n;
    }
  }

  lemma {:induction false} RemoteFrameOfRun(c: Setup, events: seq<Event>) returns (k: nat)
    requires c.Valid() && |BuildProtocol.Run(c, START, events).mi.ctrl| >= 2
    ensures RemoteSentAt(c, events, k)
    ensures Listed(c, BuildProtocol.Run(c, START, events).mi.ctrl[1]) == events[k].interfaces + [c.seenRemote]
    decreases |events|
  {
    hide BuildProtocol.Step, Inv, Listed;
    if events == [] { assert false; }
    var n := |events| - 1;
    RunSplits(c, events);
    Reached(c, events[..n]);
    RemoteFrameStep(c, BuildProtocol.Run(c, START, events[..n]), events[n]);
    hide BuildProtocol.Run;
    if |BuildProtocol.Run(c, START, events[..n]).mi.ctrl| >= 2 {
      k := RemoteFrameOfRun(c, events[..n]);
      assert events[..n][..k] == events[..k] && events[..n][..k + 1] == events[..k + 1] && events[..n][k] == events[k];
    } else {
      k := n;
    }
  }

  /**
   In every run, once the remote has taken the exchange it has poked exactly the interface addresses that the
   initiator sent in event k, in order, and the address at which the relay sees it; before that, nothing.
   */
  lemma RemotePokesInitiator(c: Setup, events: seq<Event>) returns (k: nat)
    requires c.Valid() && BuildProtocol.Run(c, START, events).remote.Building?
    ensures var s := BuildProtocol.Run(c, START, events);
      if s.im.taken < 3 then s.remote.poked == []
      else InitiatorSentAt(c, events, k) && s.remote.poked == events[k].interfaces + [c.seenInitiator]
  {
    hide BuildProtocol.Run, Line.Flowing, Listed;
    Reached(c, events);
    k := 0;
    if BuildProtocol.Run(c, START, events).im.taken == 3 { k := InitiatorFrameOfRun(c, events); }
  }

  /**
   In every run the addresses that the initiator tries are exactly the interface addresses that the remote
   sent in event k, in order, and the address at which the relay sees it.
   */
  lemma InitiatorTriesRemote(c: Setup, events: seq<Event>) returns (k: nat)
    requires c.Valid() && BuildProtocol.Run(c, START, events).init.WaitingForConnection?
    ensures var s := BuildProtocol.Run(c, START, events);
      RemoteSentAt(c, events, k) && s.init.candidates == events[k].interfaces + [c.seenRemote]
  {
    hide BuildProtocol.Run, Line.Flowing, Listed;
    Reached(c, events);
    k := RemoteFrameOfRun(c, events);
  }
}
