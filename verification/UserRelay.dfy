/**
 A user stream through a relay (src/stream.rs, `new_stream` with the proxy flag, and src/incoming_stream.rs,
 the `UserProxy` case): the opener sends a hello and may write user bytes right behind it; the relay takes the
 hello off, opens a stream to the target with a hello of its own and splices.

 Unlike in the connection-building protocol, user bytes can sit in the relay's frame buffer behind the hello,
 so nothing gets lost only because the leftover of that buffer is put back.
 */
module UserRelay {
  import opened Common
  import opened Framing
  import opened Transport
  import opened ProtocolReader
  import opened RelayLine
  import opened Messages
  import opened Streams
  import B = BuildProtocol
  import S = BuildSafety
  import P = BuildProgress

  datatype Setup = Setup(
    opener: PeerId, relay: PeerId, target: PeerId, far: Side, hello: Codec<StreamHello>)
  {
    ghost predicate Valid() {
      && Faithful(hello) && |Asked()| <= MAX_FRAME_LENGTH && |Announced()| <= MAX_FRAME_LENGTH
    }

    /** The payload of the opener's hello and the one of the relay's hello. */
    function Asked(): Bytes { hello.encode(UserProxy(target)) }
    function Announced(): Bytes { hello.encode(StreamHello.User(opener)) }
  }

  datatype Relaying = AwaitingHello | Opening(target: PeerId, hello: StreamHello) | Splicing | Gone

  datatype Remote = Absent | Incoming | Passed(end: StreamEnd) | Finished | Refused

  /** `out` carries opener to target, `back` target to opener. */
  datatype State = State(relay: Relaying, remote: Remote, out: Line, back: Line)

  /** The opener has sent its hello. */
  function Start(c: Setup): State
    requires |c.Asked()| <= MAX_FRAME_LENGTH
  {
    State(AwaitingHello, Absent, IDLE_LINE.(up := Append(IDLE_READER, Frame(c.Asked()))), IDLE_LINE)
  }

  function RelayEnds(s: State): State { s.(relay := Gone, out := CloseDown(s.out), back := CloseDown(s.back)) }

  function RelayPollsHello(c: Setup, s: State): State {
    if !s.relay.AwaitingHello? then s else
    var (up, out) := TakeFrame(s.out.up);
    match B.DecodeAs(c.hello, out)
    case Nothing => s.(out := s.out.(up := up))
    case Garbled => RelayEnds(s)
    case Message(hello) =>
      var purpose := PurposeOf(hello, c.opener);
      if purpose.Relay? && !purpose.building
      then s.(relay := Opening(purpose.target, purpose.hello), out := s.out.(up := IntoTransport(up)))
      else RelayEnds(s)
  }

  /** The stream to the target is open; nothing but the hello goes in front of what is spliced. */
  function RelayOpens(c: Setup, s: State): State {
    if !s.relay.Opening? then s else
    var hello := c.hello.encode(s.relay.hello);
    if !Sendable([hello]) then RelayEnds(s)
    else s.(relay := Splicing, remote := Incoming, out := Inject(s.out, [hello]))
  }

  function RemotePollsHello(c: Setup, s: State): State {
    if !s.remote.Incoming? then s else
    var (out, got) := B.TakeAs(c.hello, s.out);
    match got
    case Nothing => s.(out := out)
    case Garbled => s.(remote := Refused, out := out, back := CloseUp(s.back))
    case Message(hello) =>
      var purpose := PurposeOf(hello, c.relay);
      if !purpose.PassToContext? then s.(remote := Refused, out := out, back := CloseUp(s.back)) else
      var h := NewHandle(c.relay, c.target, c.far);
      s.(remote := Passed(NewEnd(purpose.peer, h, purpose.proxy)), out := SwitchDown(out))
  }

  datatype Event =
    | OpenerWrites(data: Bytes) | OpenerReads(chunk: nat, space: nat) | OpenerPolls(chunk: nat) | OpenerDrops
    | RelayFill(chunk: nat, space: nat) | RelayPolls | RelayOpened | RelayStops
    | ForwardsToTarget(chunk: nat) | ForwardsToOpener(chunk: nat)
    | RemoteFill(chunk: nat, space: nat) | RemoteHello | RemoteTimesOut
    | RemoteWrites(data: Bytes) | RemoteReads(chunk: nat, space: nat) | RemotePolls(chunk: nat) | RemoteDrops
    | CutsOutUp(n: nat) | CutsOutDown(n: nat) | CutsBackUp(n: nat) | CutsBackDown(n: nat)

  function StepOpener(s: State, e: Event): State {
    match e
    case OpenerWrites(data) => s.(out := Write(s.out, data))
    case OpenerReads(chunk, space) =>
      if chunk <= |s.back.down.io.wire| then s.(back := ReadDown(s.back, chunk, space)) else s
    case OpenerPolls(chunk) => if chunk <= |s.back.down.io.wire| then s.(back := PollDown(s.back, chunk)) else s
    case OpenerDrops => s.(out := CloseUp(s.out))
    case CutsOutUp(n) => if n <= |s.out.up.io.wire| then s.(out := CutUp(s.out, n)) else s
    case CutsBackDown(n) => if n <= |s.back.down.io.wire| then s.(back := CutDown(s.back, n)) else s
    case _ => s
  }

  function StepRelay(c: Setup, s: State, e: Event): State {
    match e
    case RelayFill(chunk, space) =>
      if s.relay.AwaitingHello? && chunk <= |s.out.up.io.wire|
      then s.(out := s.out.(up := Fill(s.out.up, chunk, space))) else s
    case RelayPolls => RelayPollsHello(c, s)
    case RelayOpened => RelayOpens(c, s)
    case RelayStops => RelayEnds(s)
    case ForwardsToTarget(chunk) =>
      if s.relay.Splicing? && !s.out.downClosed && chunk <= |s.out.up.io.wire| then s.(out := Forward(s.out, chunk)) else s
    case ForwardsToOpener(chunk) =>
      if s.relay.Splicing? && !s.back.downClosed && chunk <= |s.back.up.io.wire|
      then s.(back := Forward(s.back, chunk)) else s
    case _ => s
  }

  function StepRemote(c: Setup, s: State, e: Event): State {
    match e
    case RemoteFill(chunk, space) =>
      if s.remote.Incoming? && chunk <= |s.out.down.io.wire| then s.(out := FillDown(s.out, chunk, space)) else s
    case RemoteHello => RemotePollsHello(c, s)
    case RemoteTimesOut => if s.remote.Incoming? then s.(remote := Finished, back := CloseUp(s.back)) else s
    case RemoteWrites(data) => if s.remote.Passed? then s.(back := Write(s.back, data)) else s
    case RemoteReads(chunk, space) =>
      if s.remote.Passed? && chunk <= |s.out.down.io.wire| then s.(out := ReadDown(s.out, chunk, space)) else s
    case RemotePolls(chunk) =>
      if s.remote.Passed? && chunk <= |s.out.down.io.wire| then s.(out := PollDown(s.out, chunk)) else s
    case RemoteDrops => s.(back := CloseUp(s.back))
    case CutsOutDown(n) => if n <= |s.out.down.io.wire| then s.(out := CutDown(s.out, n)) else s
    case CutsBackUp(n) => if n <= |s.back.up.io.wire| then s.(back := CutUp(s.back, n)) else s
    case _ => s
  }

  /** Every event is handled by exactly one of the three parts; the others leave the state alone. */
  function Step(c: Setup, s: State, e: Event): State { StepRemote(c, StepRelay(c, StepOpener(s, e), e), e) }

  function Run(c: Setup, s: State, events: seq<Event>): State
    decreases |events|
  {
    if events == [] then s else Run(c, Step(c, s, events[0]), events[1..])
  }

  // ---------- The invariant ----------

  /** While the relay waits for the hello, it and all user bytes written so far are on the first hop. */
  predicate HelloUnderWay(c: Setup, l: Line)
    requires |c.Asked()| <= MAX_FRAME_LENGTH
  {
    && l.up.Valid() && l.up.Ahead() <= Frame(c.Asked()) + l.user
    && (!l.upClosed ==> l.up.Ahead() == Frame(c.Asked()) + l.user)
  }

  /** Nothing has been put on the second hop. */
  predicate Unopened(l: Line) {
    l.ctrl == [] && l.taken == 0 && l.delivered == [] && l.down.Valid() && l.down.Ahead() == []
  }

  /** The opener reads user bytes from the start on, and there are none before the target has its end. */
  predicate BackOk(s: State) {
    && s.back.Valid() && s.back.ctrl == [] && s.back.down.Bare()
    && (s.back.user != [] ==> s.remote.Passed?)
  }

  predicate OutOk(c: Setup, s: State)
    requires |c.Asked()| <= MAX_FRAME_LENGTH
  {
    match s.remote
    case Absent =>
      && Unopened(s.out)
      && (match s.relay
          case AwaitingHello => HelloUnderWay(c, s.out)
          case Opening(target, hello) => s.out.Valid() && target == c.target && hello == StreamHello.User(c.opener)
          case Splicing => false
          case Gone => true)
    case Incoming => Joined(c, s) && s.out.taken == 0 && s.out.delivered == []
    case Passed(end) =>
      && Joined(c, s) && s.out.taken == 1 && s.out.down.Bare()
      && end == StreamEnd(c.opener, c.opener != c.relay, Handle(c.opener, c.target, c.far, c.opener != c.relay))
    case Finished => Joined(c, s) && s.out.delivered == []
    case Refused => false
  }

  predicate Joined(c: Setup, s: State) {
    (s.relay.Splicing? || s.relay.Gone?) && s.out.Valid() && s.out.ctrl == [c.Announced()]
  }

  predicate Inv(c: Setup, s: State)
    requires |c.Asked()| <= MAX_FRAME_LENGTH
  {
    BackOk(s) && OutOk(c, s)
  }

  // ---------- Each step keeps it ----------

  lemma StartHolds(c: Setup)
    requires c.Valid()
    ensures Inv(c, Start(c))
  {
    assert [] + Frame(c.Asked()) == Frame(c.Asked()) == Frame(c.Asked()) + [];
  }

  lemma WriteUnderWay(c: Setup, l: Line, data: Bytes)
    requires |c.Asked()| <= MAX_FRAME_LENGTH && HelloUnderWay(c, l)
    ensures HelloUnderWay(c, Write(l, data))
  {
    AppendAhead(l.up, data);
    Assoc(Frame(c.Asked()), l.user, data);
    hide Frame;
  }

  lemma WriteKeepsOut(c: Setup, s: State, data: Bytes)
    requires c.Valid() && Inv(c, s)
    ensures Inv(c, s.(out := Write(s.out, data)))
  {
    if s.remote.Absent? && s.relay.AwaitingHello? { WriteUnderWay(c, s.out, data); }
    if s.out.Valid() { WriteKeeps(s.out, data); }
    hide Line.Flowing, HelloUnderWay;
  }

  lemma OpenerReadsKeeps(c: Setup, s: State, chunk: nat, space: nat)
    requires c.Valid() && Inv(c, s) && chunk <= |s.back.down.io.wire|
    ensures Inv(c, s.(back := ReadDown(s.back, chunk, space))) && Inv(c, s.(back := PollDown(s.back, chunk)))
  {
    ReadDownKeeps(s.back, chunk, space);
    PollDownKeeps(s.back, chunk);
    hide Line.Flowing, OutOk;
    OutIgnoresBack(c, s, ReadDown(s.back, chunk, space));
    OutIgnoresBack(c, s, PollDown(s.back, chunk));
  }

  lemma OutIgnoresBack(c: Setup, s: State, back: Line)
    requires |c.Asked()| <= MAX_FRAME_LENGTH && OutOk(c, s)
    ensures OutOk(c, s.(back := back))
  {
    hide Line.Valid, HelloUnderWay, Unopened;
  }

  /** Closing and cutting hops; `up'` is what is left on the first hop. */
  lemma CutUnderWay(c: Setup, l: Line, n: nat)
    requires |c.Asked()| <= MAX_FRAME_LENGTH && HelloUnderWay(c, l) && n <= |l.up.io.wire|
    ensures HelloUnderWay(c, CutUp(l, n)) && HelloUnderWay(c, CloseUp(l))
  {
    S.CutReader(l.up, n);
    PrefixOfPrefix(CutUp(l, n).up.Ahead(), l.up.Ahead(), Frame(c.Asked()) + l.user);
  }

  lemma OutUpKeeps(c: Setup, s: State, n: nat)
    requires c.Valid() && Inv(c, s) && n <= |s.out.up.io.wire|
    ensures Inv(c, s.(out := CutUp(s.out, n))) && Inv(c, s.(out := CloseUp(s.out)))
  {
    if s.remote.Absent? && s.relay.AwaitingHello? { CutUnderWay(c, s.out, n); }
    if s.out.Valid() { CutUpKeeps(s.out, n); }
    CloseKeeps(s.out);
    hide Line.Flowing, HelloUnderWay, Faithful;
  }

  lemma BackKeeps(c: Setup, s: State, back: Line)
    requires c.Valid() && Inv(c, s) && back.Valid() && back.ctrl == s.back.ctrl && back.down.dec == s.back.down.dec
    requires back.user != [] ==> s.remote.Passed?
    ensures Inv(c, s.(back := back))
  {
    hide Line.Valid, OutOk;
    OutIgnoresBack(c, s, back);
  }

  lemma OpenerKeeps(c: Setup, s: State, e: Event)
    requires c.Valid() && Inv(c, s)
    ensures Inv(c, StepOpener(s, e))
  {
    hide OutOk, Line.Flowing;
    match e
    case OpenerWrites(data) => WriteKeepsOut(c, s, data);
    case OpenerReads(chunk, space) => if chunk <= |s.back.down.io.wire| { OpenerReadsKeeps(c, s, chunk, space); }
    case OpenerPolls(chunk) => if chunk <= |s.back.down.io.wire| { OpenerReadsKeeps(c, s, chunk, 0); }
    case OpenerDrops => OutUpKeeps(c, s, 0);
    case CutsOutUp(n) => if n <= |s.out.up.io.wire| { OutUpKeeps(c, s, n); }
    case CutsBackDown(n) =>
      if n <= |s.back.down.io.wire| {
        CutDownKeeps(s.back, n);
        BackKeeps(c, s, CutDown(s.back, n));
      }
    case _ =>
  }

  /** The hello comes off the first hop whole, and what was read behind it is put back. */
  lemma HelloTakenOff(c: Setup, l: Line)
    requires c.Valid() && HelloUnderWay(c, l)
    ensures var (up, out) := TakeFrame(l.up);
      && up.Valid() && !out.Oversized?
      && (out.NeedMore? ==> HelloUnderWay(c, l.(up := up)))
      && (out.Payload? ==>
            && out.bytes == c.Asked() && up.dec.phase.Head? && up.Ahead() <= l.user
            && (!l.upClosed ==> up.Ahead() == l.user))
  {
    var (up, out) := TakeFrame(l.up);
    TakeFrameConserves(l.up);
    DecodeInFrame(l.up.dec, l.up.io.Undelivered(), c.Asked(), l.user);
    if out.Payload? && !l.upClosed {
      var f := Frame(c.Asked());
      assert (f + up.Ahead())[|f|..] == up.Ahead() && (f + l.user)[|f|..] == l.user;
    }
  }

  /** A line whose first hop is bare and holds the front of the user bytes. */
  lemma BareLineIsValid(l: Line)
    requires Unopened(l) && l.up.Valid() && l.up.Bare() && l.up.Ahead() <= l.user
    requires !l.upClosed ==> l.up.Ahead() == l.user
    ensures l.Valid()
  {
    RestAtStart(l);
    assert [] + l.user == l.user && [] + l.up.Ahead() == l.up.Ahead();
  }

  lemma RelayPollsHelloKeeps(c: Setup, s: State)
    requires c.Valid() && Inv(c, s) && s.relay.AwaitingHello?
    ensures Inv(c, RelayPollsHello(c, s))
  {
    HelloTakenOff(c, s.out);
    var (up, out) := TakeFrame(s.out.up);
    if out.Payload? {
      SwitchConservesIffBetweenFrames(up);
      BareLineIsValid(s.out.(up := IntoTransport(up)));
    }
    hide Line.Flowing, TakeFrame, IntoTransport, HelloUnderWay;
  }

  lemma RelayOpensKeeps(c: Setup, s: State)
    requires c.Valid() && Inv(c, s) && s.relay.Opening?
    ensures Inv(c, RelayOpens(c, s))
  {
    hide Line.Flowing;
    InjectKeeps(s.out, [c.Announced()]);
    assert [] + [c.Announced()] == [c.Announced()];
  }

  lemma RelayFillKeeps(c: Setup, s: State, chunk: nat, space: nat)
    requires c.Valid() && Inv(c, s) && s.relay.AwaitingHello? && chunk <= |s.out.up.io.wire|
    ensures Inv(c, s.(out := s.out.(up := Fill(s.out.up, chunk, space))))
  {
    FillConserves(s.out.up, chunk, space);
    hide Line.Flowing, Fill;
  }

  lemma RelayEndsKeeps(c: Setup, s: State)
    requires c.Valid() && Inv(c, s)
    ensures Inv(c, RelayEnds(s))
  {
    hide Line.Flowing;
    CloseKeeps(s.out);
    CloseKeeps(s.back);
  }

  lemma ForwardsKeep(c: Setup, s: State, chunk: nat)
    requires c.Valid() && Inv(c, s) && s.relay.Splicing?
    ensures !s.out.downClosed && chunk <= |s.out.up.io.wire| ==> Inv(c, s.(out := Forward(s.out, chunk)))
    ensures !s.back.downClosed && chunk <= |s.back.up.io.wire| ==> Inv(c, s.(back := Forward(s.back, chunk)))
  {
    hide Line.Flowing;
    if !s.out.downClosed && chunk <= |s.out.up.io.wire| { ForwardKeeps(s.out, chunk); }
    if !s.back.downClosed && chunk <= |s.back.up.io.wire| {
      ForwardKeeps(s.back, chunk);
      BackKeeps(c, s, Forward(s.back, chunk));
    }
  }

  lemma RelayKeeps(c: Setup, s: State, e: Event)
    requires c.Valid() && Inv(c, s)
    ensures Inv(c, StepRelay(c, s, e))
  {
    hide Inv, RelayPollsHello, RelayOpens, RelayEnds, Forward, Fill;
    match e
    case RelayFill(chunk, space) =>
      if s.relay.AwaitingHello? && chunk <= |s.out.up.io.wire| { RelayFillKeeps(c, s, chunk, space); }
    case RelayPolls => if s.relay.AwaitingHello? { RelayPollsHelloKeeps(c, s); } else { RelayUnmoved(c, s); }
    case RelayOpened => if s.relay.Opening? { RelayOpensKeeps(c, s); } else { RelayUnmoved(c, s); }
    case RelayStops => RelayEndsKeeps(c, s);
    case ForwardsToTarget(chunk) => if s.relay.Splicing? { ForwardsKeep(c, s, chunk); }
    case ForwardsToOpener(chunk) => if s.relay.Splicing? { ForwardsKeep(c, s, chunk); }
    case _ =>
  }

  /** A step that belongs to another state changes nothing. */
  lemma RelayUnmoved(c: Setup, s: State)
    ensures !s.relay.AwaitingHello? ==> RelayPollsHello(c, s) == s
    ensures !s.relay.Opening? ==> RelayOpens(c, s) == s
    ensures !s.remote.Incoming? ==> RemotePollsHello(c, s) == s
  {
  }

  lemma RemotePollsHelloKeeps(c: Setup, s: State)
    requires c.Valid() && Inv(c, s) && s.remote.Incoming?
    ensures Inv(c, RemotePollsHello(c, s))
  {
    hide Line.Flowing;
    S.TakeAsExpected(c.hello, s.out);
    var (out, got) := B.TakeAs(c.hello, s.out);
    if got.Message? { SwitchDownKeeps(out); }
  }

  lemma RemoteReadsKeeps(c: Setup, s: State, chunk: nat, space: nat)
    requires c.Valid() && Inv(c, s) && s.remote.Passed? && chunk <= |s.out.down.io.wire|
    ensures Inv(c, s.(out := ReadDown(s.out, chunk, space))) && Inv(c, s.(out := PollDown(s.out, chunk)))
  {
    ReadDownKeeps(s.out, chunk, space);
    PollDownKeeps(s.out, chunk);
    hide Line.Flowing;
  }

  lemma CutUnopened(l: Line, n: nat)
    requires Unopened(l) && n <= |l.down.io.wire|
    ensures Unopened(CutDown(l, n))
  {
    S.CutReader(l.down, n);
  }

  lemma OutDownKeeps(c: Setup, s: State, n: nat)
    requires c.Valid() && Inv(c, s) && n <= |s.out.down.io.wire|
    ensures Inv(c, s.(out := CutDown(s.out, n)))
  {
    if s.remote.Absent? { CutUnopened(s.out, n); }
    if s.out.Valid() { CutDownKeeps(s.out, n); }
    hide Line.Flowing, Faithful, Frame;
  }

  lemma RemoteFillKeeps(c: Setup, s: State, chunk: nat, space: nat)
    requires c.Valid() && Inv(c, s) && s.remote.Incoming? && chunk <= |s.out.down.io.wire|
    ensures Inv(c, s.(out := FillDown(s.out, chunk, space)))
  {
    hide Line.Flowing;
    FillDownKeeps(s.out, chunk, space);
  }

  lemma RemoteTimesOutKeeps(c: Setup, s: State)
    requires c.Valid() && Inv(c, s) && s.remote.Incoming?
    ensures Inv(c, s.(remote := Finished, back := CloseUp(s.back)))
  {
    hide Line.Flowing;
    CloseKeeps(s.back);
  }

  lemma RemoteKeeps(c: Setup, s: State, e: Event)
    requires c.Valid() && Inv(c, s)
    ensures Inv(c, StepRemote(c, s, e))
  {
    hide OutOk, Line.Flowing, RemotePollsHello;
    match e
    case RemoteFill(chunk, space) =>
      if s.remote.Incoming? && chunk <= |s.out.down.io.wire| { RemoteFillKeeps(c, s, chunk, space); }
    case RemoteHello => if s.remote.Incoming? { RemotePollsHelloKeeps(c, s); } else { RelayUnmoved(c, s); }
    case RemoteTimesOut => if s.remote.Incoming? { RemoteTimesOutKeeps(c, s); }
    case RemoteWrites(data) =>
      if s.remote.Passed? {
        WriteKeeps(s.back, data);
        BackKeeps(c, s, Write(s.back, data));
      }
    case RemoteReads(chunk, space) =>
      if s.remote.Passed? && chunk <= |s.out.down.io.wire| { RemoteReadsKeeps(c, s, chunk, space); }
    case RemotePolls(chunk) =>
      if s.remote.Passed? && chunk <= |s.out.down.io.wire| { RemoteReadsKeeps(c, s, chunk, 0); }
    case RemoteDrops =>
      CloseKeeps(s.back);
      BackKeeps(c, s, CloseUp(s.back));
    case CutsOutDown(n) => if n <= |s.out.down.io.wire| { OutDownKeeps(c, s, n); }
    case CutsBackUp(n) =>
      if n <= |s.back.up.io.wire| {
        CutUpKeeps(s.back, n);
        BackKeeps(c, s, CutUp(s.back, n));
      }
    case _ =>
  }

  lemma StepKeeps(c: Setup, s: State, e: Event)
    requires c.Valid() && Inv(c, s)
    ensures Inv(c, Step(c, s, e))
  {
    hide Inv, StepOpener, StepRelay, StepRemote;
    OpenerKeeps(c, s, e);
    RelayKeeps(c, StepOpener(s, e), e);
    RemoteKeeps(c, StepRelay(c, StepOpener(s, e), e), e);
  }

  lemma {:induction false} RunKeeps(c: Setup, s: State, events: seq<Event>)
    requires c.Valid() && Inv(c, s)
    ensures Inv(c, Run(c, s, events))
    decreases |events|
  {
    hide Inv, Step;
    if events != [] {
      StepKeeps(c, s, events[0]);
      RunKeeps(c, Step(c, s, events[0]), events[1..]);
    }
  }

  // ---------- Main results ----------

  /**
   In every run, for every chunking and every loss: each user reads a prefix of what the other wrote, although
   the opener may write right behind its hello; the target names the opener, and says that the stream is
   proxied unless the relay itself opened it; no party meets a hello that it does not expect.
   */
  lemma UserBytesPassTheRelay(c: Setup, events: seq<Event>)
    requires c.Valid()
    ensures var s := Run(c, Start(c), events);
      && s.out.delivered <= s.out.user && s.back.delivered <= s.back.user
      && (s.out.delivered != [] || s.back.user != [] ==> s.remote.Passed?)
      && (s.remote.Passed? ==>
            s.remote.end == StreamEnd(c.opener, c.opener != c.relay, Handle(c.opener, c.target, c.far, c.opener != c.relay)))
      && !s.remote.Refused?
  {
    StartHolds(c);
    RunKeeps(c, Start(c), events);
    hide Run, Line.Flowing;
  }

  /** With no hop closed and nothing under way, a stream that reached the target has delivered everything. */
  lemma DrainedIsDelivered(c: Setup, events: seq<Event>)
    requires c.Valid()
    ensures var s := Run(c, Start(c), events);
      && (s.remote.Passed? && S.Drained(s.out) ==> s.out.delivered == s.out.user)
      && (S.Drained(s.back) ==> s.back.delivered == s.back.user)
  {
    StartHolds(c);
    RunKeeps(c, Start(c), events);
    var s := Run(c, Start(c), events);
    hide Run;
    if s.remote.Passed? && S.Drained(s.out) { DrainedLineIsComplete(s.out); }
    if S.Drained(s.back) { DrainedLineIsComplete(s.back); }
  }

  // ---------- The stream stays usable ----------

  /** Nobody has given up, and no hop from opener to target was closed. */
  predicate Hopeful(s: State) {
    !s.relay.Gone? && !s.remote.Finished? && !s.remote.Refused? && Open(s.out)
  }

  lemma {:induction false} RunAppend(c: Setup, s: State, events: seq<Event>, more: seq<Event>)
    ensures Run(c, s, events + more) == Run(c, Run(c, s, events), more)
    decreases |events|
  {
    hide Step;
    if events == [] {
      assert events + more == more;
    } else {
      assert (events + more)[0] == events[0] && (events + more)[1..] == events[1..] + more;
      RunAppend(c, Step(c, s, events[0]), events[1..], more);
    }
  }

  lemma RunTwo(c: Setup, s: State, e: Event, f: Event)
    ensures Run(c, s, [e]) == Step(c, s, e) && Run(c, s, [e, f]) == Step(c, Step(c, s, e), f)
  {
    hide Step;
    assert [e][1..] == [] && [e, f][1..] == [f] && [f][1..] == [];
    assert Run(c, Step(c, s, e), [f]) == Step(c, Step(c, s, e), f);
  }

  /** A relay that holds the whole hello takes it off. */
  lemma RelayTakesHello(c: Setup, s: State)
    requires c.Valid() && Inv(c, s) && Hopeful(s) && s.relay.AwaitingHello? && s.out.up.io.Undelivered() == []
    ensures RelayPollsHello(c, s).relay.Opening? && Open(RelayPollsHello(c, s).out)
    ensures RelayPollsHello(c, s).remote == s.remote && RelayPollsHello(c, s).out.user == s.out.user
  {
    hide Line.Flowing;
    assert s.remote.Absent?;
    var r := s.out.up;
    assert Held(r.dec) == Held(r.dec) + [] == r.Ahead() == Frame(c.Asked()) + s.out.user;
    DecodeWholeFrame(r.dec, c.Asked(), s.out.user);
  }

  lemma StepsFillRelay(c: Setup, s: State) returns (events: seq<Event>)
    requires s.relay.AwaitingHello?
    ensures Run(c, s, events) == s.(out := s.out.(up := P.Filled(s.out.up)))
  {
    var n := |s.out.up.io.Undelivered()|;
    var m := |Fill(s.out.up, 0, n).io.wire|;
    events := [RelayFill(0, n), RelayFill(m, m)];
    RunTwo(c, s, events[0], events[1]);
    hide Run;
  }

  /** Progress of a state: its history of user bytes, with the parties further along. */
  predicate Further(s: State, s': State) { Hopeful(s') && s'.out.user == s.out.user }

  lemma HelloComesOff(c: Setup, s: State) returns (events: seq<Event>)
    requires c.Valid() && Inv(c, s) && Hopeful(s) && s.remote.Absent?
    ensures Further(s, Run(c, s, events)) && Run(c, s, events).relay.Opening?
  {
    if s.relay.Opening? {
      events := [];
    } else {
      hide Run, Line.Flowing;
      var fill := StepsFillRelay(c, s);
      var s1 := s.(out := s.out.(up := P.Filled(s.out.up)));
      P.FilledHoldsAll(s.out.up);
      RunKeeps(c, s, fill);
      hide P.Filled, RelayPollsHello, Inv;
      RelayTakesHello(c, s1);
      RunTwo(c, s1, RelayPolls, RelayPolls);
      assert Step(c, s1, RelayPolls) == RelayPollsHello(c, s1);
      RunAppend(c, s, fill, [RelayPolls]);
      events := fill + [RelayPolls];
    }
  }

  lemma OpeningKnows(c: Setup, s: State)
    requires c.Valid() && Inv(c, s) && s.relay.Opening?
    ensures s.relay.hello == StreamHello.User(c.opener)
  {
    hide Line.Valid, Unopened;
  }

  lemma RelayOpensTarget(c: Setup, s: State)
    requires c.Valid() && Hopeful(s) && s.relay.Opening? && s.relay.hello == StreamHello.User(c.opener)
    ensures var s' := RelayOpens(c, s); Further(s, s') && s'.relay.Splicing? && s'.remote.Incoming?
  {
    assert Sendable([c.Announced()]);
    hide Faithful;
  }

  lemma TargetOpens(c: Setup, s: State) returns (events: seq<Event>)
    requires c.Valid() && Inv(c, s) && Hopeful(s) && s.relay.Opening?
    ensures Further(s, Run(c, s, events)) && Run(c, s, events).relay.Splicing? && Run(c, s, events).remote.Incoming?
  {
    events := [RelayOpened];
    OpeningKnows(c, s);
    RelayOpensTarget(c, s);
    hide RelayOpens, Inv, Run;
    RunTwo(c, s, RelayOpened, RelayOpened);
    assert Step(c, s, RelayOpened) == RelayOpens(c, s);
  }

  lemma StepsForward(c: Setup, s: State) returns (events: seq<Event>)
    requires s.relay.Splicing? && Open(s.out)
    ensures Run(c, s, events) == s.(out := ForwardAll(s.out))
  {
    events := [ForwardsToTarget(0), ForwardsToTarget(|Forward(s.out, 0).up.io.wire|)];
    RunTwo(c, s, events[0], events[1]);
    hide Run;
  }

  lemma StepsFillTarget(c: Setup, s: State) returns (events: seq<Event>)
    requires s.remote.Incoming?
    ensures Run(c, s, events) == s.(out := FillAll(s.out))
  {
    var n := |s.out.down.io.Undelivered()|;
    var m := |FillDown(s.out, 0, n).down.io.wire|;
    events := [RemoteFill(0, n), RemoteFill(m, m)];
    RunTwo(c, s, events[0], events[1]);
    hide Run;
  }

  lemma StepsReadTarget(c: Setup, s: State) returns (events: seq<Event>)
    requires s.remote.Passed?
    ensures Run(c, s, events) == s.(out := P.ReadAll(s.out))
  {
    events := [RemotePolls(0), RemotePolls(|PollDown(s.out, 0).down.io.wire|)];
    RunTwo(c, s, events[0], events[1]);
    hide Run;
  }

  lemma TargetTakesHello(c: Setup, s: State)
    requires c.Valid() && s.remote.Incoming? && s.relay.Splicing? && Open(s.out)
    requires Pumped(s.out) && s.out.ctrl == [c.Announced()] && s.out.taken == 0
    ensures var s' := Step(c, s, RemoteHello); Further(s, s') && s'.remote.Passed? && s'.relay == s.relay
  {
    PumpedLineYields(s.out);
    hide Line.Flowing;
    assert Step(c, s, RemoteHello) == RemotePollsHello(c, s);
  }

  lemma TargetAccepts(c: Setup, s: State) returns (events: seq<Event>)
    requires c.Valid() && Inv(c, s) && Hopeful(s) && s.relay.Splicing? && s.remote.Incoming?
    ensures var s' := Run(c, s, events); Further(s, s') && s'.remote.Passed? && s'.relay.Splicing?
  {
    hide Run, Line.Flowing;
    var e1 := StepsForward(c, s);
    ForwardAllKeeps(s.out);
    var s1 := s.(out := ForwardAll(s.out));
    var e2 := StepsFillTarget(c, s1);
    FillAllKeeps(s1.out);
    var s2 := s1.(out := FillAll(s1.out));
    hide ForwardAll, FillAll, Step;
    TargetTakesHello(c, s2);
    RunTwo(c, s2, RemoteHello, RemoteHello);
    RunAppend(c, s1, e2, [RemoteHello]);
    RunAppend(c, s, e1, e2 + [RemoteHello]);
    events := e1 + (e2 + [RemoteHello]);
  }

  lemma TargetReadsAll(c: Setup, s: State) returns (events: seq<Event>)
    requires c.Valid() && Inv(c, s) && Hopeful(s) && s.relay.Splicing? && s.remote.Passed?
    ensures var s' := Run(c, s, events); s'.remote.Passed? && s'.out.delivered == s'.out.user == s.out.user
  {
    hide Run, Line.Flowing;
    var e1 := StepsForward(c, s);
    ForwardAllKeeps(s.out);
    var s1 := s.(out := ForwardAll(s.out));
    var e2 := StepsReadTarget(c, s1);
    P.ReadAllCompletes(s1.out);
    RunAppend(c, s, e1, e2);
    events := e1 + e2;
  }

  /**
   In every run, as long as nobody gave up and no hop was closed, some continuation delivers to the target all
   that the opener wrote, also what it wrote right behind the hello.
   */
  lemma DeliveryStaysPossible(c: Setup, events: seq<Event>) returns (more: seq<Event>)
    requires c.Valid() && Hopeful(Run(c, Start(c), events))
    ensures var s, s' := Run(c, Start(c), events), Run(c, Start(c), events + more);
      s'.remote.Passed? && s'.out.delivered == s'.out.user == s.out.user
  {
    StartHolds(c);
    RunKeeps(c, Start(c), events);
    var s := Run(c, Start(c), events);
    more := [];
    var s1 := s;
    hide Run;
    assert Run(c, s, []) == s by { RunNone(c, s); }
    if s.remote.Absent? {
      NotYetOpen(c, s);
      var e1 := HelloComesOff(c, s);
      RunKeeps(c, s, e1);
      var e2 := TargetOpens(c, Run(c, s, e1));
      RunAppend(c, s, e1, e2);
      more := e1 + e2;
      s1 := Run(c, s, more);
    }
    RunKeeps(c, s, more);
    AlreadyOpen(c, s1);
    if s1.remote.Incoming? {
      var e3 := TargetAccepts(c, s1);
      RunAppend(c, s, more, e3);
      more := more + e3;
      s1 := Run(c, s, more);
    }
    RunKeeps(c, s, more);
    var e4 := TargetReadsAll(c, s1);
    RunAppend(c, s, more, e4);
    more := more + e4;
    RunAppend(c, Start(c), events, more);
  }

  lemma RunNone(c: Setup, s: State)
    ensures Run(c, s, []) == s
  {
  }

  lemma NotYetOpen(c: Setup, s: State)
    requires c.Valid() && Inv(c, s) && Hopeful(s) && s.remote.Absent?
    ensures s.relay.AwaitingHello? || s.relay.Opening?
  {
  }

  lemma AlreadyOpen(c: Setup, s: State)
    requires c.Valid() && Inv(c, s) && Hopeful(s) && !s.remote.Absent?
    ensures s.relay.Splicing? && (s.remote.Incoming? || s.remote.Passed?)
  {
  }
}
