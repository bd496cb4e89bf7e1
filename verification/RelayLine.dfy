/**
 One direction of a relayed stream: writer -> relay -> reader (src/incoming_stream.rs, the splice in
 `handle_proxy_stream`). The relay may put control frames of its own in front of what it forwards.

 The line remembers what was ever written on it, so that its invariant can compare the bytes still under
 way with what the reader has yet to see.
 */
module RelayLine {
  import opened Common
  import opened Framing
  import opened Transport
  import opened ProtocolReader

  /**
   Bytes under way on both hops are the front of what is to come; all of it, as long as both are open.
   Behind a closed hop nothing more is expected.
   */
  predicate Flow(down: Bytes, up: Bytes, rest: Bytes, upClosed: bool, downClosed: bool) {
    && down <= rest
    && (!downClosed ==> down + up <= rest)
    && (!downClosed && !upClosed ==> down + up == rest)
  }

  datatype Line = Line(
    ctrl: seq<Bytes>,      // payloads of all control frames written, in the order of the reader
    user: Bytes,           // all user bytes written; they come after every control frame
    taken: nat,            // control frames the reader has decoded
    delivered: Bytes,      // user bytes the reader has read
    up: Reader,            // the hop from the writer, read by the relay
    upClosed: bool,
    down: Reader,          // the hop from the relay, read by the reader
    downClosed: bool)
  {
    predicate Counts() {
      && Sendable(ctrl) && taken <= |ctrl|
      && delivered <= user
      && (delivered != [] ==> taken == |ctrl|)
    }

    /** What the reader has yet to see if nothing gets lost. */
    function Rest(): Bytes
      requires Counts()
    {
      Frames(ctrl[taken..]) + user[|delivered|..]
    }

    /** The bytes on both hops fit what was written and what was read. */
    predicate Flowing()
      requires Counts()
    {
      && up.Valid() && up.Bare() && down.Valid()
      && Flow(down.Ahead(), up.Ahead(), Rest(), upClosed, downClosed)
    }

    predicate Valid() { Counts() && Flowing() }
  }

  const IDLE_READER := Reader(Pipe(None, []), FRESH_DECODER)
  const IDLE_LINE := Line([], [], 0, [], IDLE_READER, false, IDLE_READER, false)

  function Append(r: Reader, data: Bytes): Reader { r.(io := r.io.(wire := r.io.wire + data)) }

  lemma AppendAhead(r: Reader, data: Bytes)
    requires r.Valid()
    ensures Append(r, data).Valid() && Append(r, data).Ahead() == r.Ahead() + data
  {
  }

  // ---------- The writer ----------

  /** The writer sends a control frame; on a closed hop it is lost. */
  function Send(l: Line, payload: Bytes): Line
    requires |payload| <= MAX_FRAME_LENGTH
  {
    l.(ctrl := l.ctrl + [payload], up := if l.upClosed then l.up else Append(l.up, Frame(payload)))
  }

  /** The writer writes user bytes; on a closed hop they are lost. */
  function Write(l: Line, data: Bytes): Line {
    l.(user := l.user + data, up := if l.upClosed then l.up else Append(l.up, data))
  }

  function CloseUp(l: Line): Line { l.(upClosed := true) }

  // ---------- The relay ----------

  /** The relay writes control frames of its own, before it forwards anything. */
  function Inject(l: Line, payloads: seq<Bytes>): Line
    requires Sendable(payloads)
  {
    l.(ctrl := l.ctrl + payloads, down := if l.downClosed then l.down else Append(l.down, Frames(payloads)))
  }

  /** The relay moves one chunk. */
  function Forward(l: Line, chunk: nat): Line
    requires chunk <= |l.up.io.wire|
  {
    var (io, data) := PollPipe(l.up.io, chunk);
    l.(up := l.up.(io := io), down := Append(l.down, data))
  }

  function CloseDown(l: Line): Line { l.(downClosed := true) }

  /** A hop breaks and loses everything behind the first n bytes on the wire. */
  function CutUp(l: Line, n: nat): Line
    requires n <= |l.up.io.wire|
  {
    l.(up := l.up.(io := l.up.io.(wire := l.up.io.wire[..n])), upClosed := true)
  }

  function CutDown(l: Line, n: nat): Line
    requires n <= |l.down.io.wire|
  {
    l.(down := l.down.(io := l.down.io.(wire := l.down.io.wire[..n])), downClosed := true)
  }

  // ---------- The reader ----------

  function FillDown(l: Line, chunk: nat, space: nat): Line
    requires chunk <= |l.down.io.wire|
  {
    l.(down := Fill(l.down, chunk, space))
  }

  function TakeDown(l: Line): (Line, Outcome) {
    var (down, out) := TakeFrame(l.down);
    (l.(down := down, taken := if out.Payload? then l.taken + 1 else l.taken), out)
  }

  function SwitchDown(l: Line): Line { l.(down := IntoTransport(l.down)) }

  function ReadDown(l: Line, chunk: nat, space: nat): Line
    requires chunk <= |l.down.io.wire|
  {
    var (io, data) := ReadPipe(l.down.io, chunk, space);
    l.(down := l.down.(io := io), delivered := l.delivered + data)
  }

  function PollDown(l: Line, chunk: nat): Line
    requires chunk <= |l.down.io.wire|
  {
    var (io, data) := PollPipe(l.down.io, chunk);
    l.(down := l.down.(io := io), delivered := l.delivered + data)
  }

  // ---------- Every operation keeps the line ----------

  lemma SendKeeps(l: Line, payload: Bytes)
    requires l.Valid() && |payload| <= MAX_FRAME_LENGTH && l.user == []
    ensures Send(l, payload).Valid()
  {
    var l' := Send(l, payload);
    assert l'.ctrl[l.taken..] == l.ctrl[l.taken..] + [payload];
    FramesAppend(l.ctrl[l.taken..], [payload]);
    FramesOne(payload);
    assert l.user[|l.delivered|..] == [];
    assert l'.Rest() == l.Rest() + Frame(payload);
    AppendAhead(l.up, Frame(payload));
    FlowAppend(l.down.Ahead(), l.up.Ahead(), l.Rest(), Frame(payload), l.upClosed, l.downClosed);
  }

  /** Writing at the end of the line; on a closed hop the new bytes are lost. */
  lemma FlowAppend(down: Bytes, up: Bytes, rest: Bytes, data: Bytes, upClosed: bool, downClosed: bool)
    requires Flow(down, up, rest, upClosed, downClosed)
    ensures Flow(down, if upClosed then up else up + data, rest + data, upClosed, downClosed)
  {
    Assoc(down, up, data);
  }

  lemma WriteKeeps(l: Line, data: Bytes)
    requires l.Valid()
    ensures Write(l, data).Valid()
  {
    var l' := Write(l, data);
    assert l'.user[|l.delivered|..] == l.user[|l.delivered|..] + data;
    Assoc(Frames(l.ctrl[l.taken..]), l.user[|l.delivered|..], data);
    AppendAhead(l.up, data);
    FlowAppend(l.down.Ahead(), l.up.Ahead(), l.Rest(), data, l.upClosed, l.downClosed);
  }

  lemma RestAtStart(l: Line)
    requires l.Counts() && l.taken == 0 && l.delivered == []
    ensures l.Rest() == Frames(l.ctrl) + l.user
  {
    assert l.ctrl[0..] == l.ctrl && l.user[0..] == l.user;
  }

  /** The relay's own frames come in front of all that the writer has written, also of user bytes. */
  lemma InjectKeeps(l: Line, payloads: seq<Bytes>)
    requires l.Valid() && l.ctrl == [] && l.delivered == [] && l.down.Ahead() == [] && Sendable(payloads)
    ensures Inject(l, payloads).Valid()
  {
    var l' := Inject(l, payloads);
    assert l'.ctrl == payloads;
    RestAtStart(l);
    RestAtStart(l');
    AppendAhead(l.down, Frames(payloads));
    FlowPrepend(Frames(payloads), l.up.Ahead(), l.user, l.upClosed, l.downClosed);
    hide Frames, Flow;
    assert [] + l.user == l.user && [] + Frames(payloads) == Frames(payloads);
  }

  lemma FlowPrepend(front: Bytes, up: Bytes, rest: Bytes, upClosed: bool, downClosed: bool)
    requires Flow([], up, rest, upClosed, downClosed)
    ensures Flow(if downClosed then [] else front, up, front + rest, upClosed, downClosed)
  {
    assert [] + up == up;
  }

  lemma ForwardKeeps(l: Line, chunk: nat)
    requires l.Valid() && !l.downClosed && chunk <= |l.up.io.wire|
    ensures Forward(l, chunk).Valid()
  {
    PollConserves(l.up.io, chunk);
    var (io, data) := PollPipe(l.up.io, chunk);
    AppendAhead(l.down, data);
    var up := l.up.(io := io);
    assert l.up.Ahead() == data + up.Ahead();
    Assoc(l.down.Ahead(), data, up.Ahead());
    assert l.down.Ahead() + data <= l.down.Ahead() + l.up.Ahead();
    PrefixOfPrefix(l.down.Ahead() + data, l.down.Ahead() + l.up.Ahead(), l.Rest());
  }

  lemma CutUpKeeps(l: Line, n: nat)
    requires l.Valid() && n <= |l.up.io.wire|
    ensures CutUp(l, n).Valid()
  {
    var l' := CutUp(l, n);
    assert l.up.io.wire == l'.up.io.wire + l.up.io.wire[n..];
    assert l.up == Append(l'.up, l.up.io.wire[n..]);
    AppendAhead(l'.up, l.up.io.wire[n..]);
    FlowCut(l.down.Ahead(), l'.up.Ahead(), l.up.io.wire[n..], l.Rest(), l.upClosed, l.downClosed);
  }

  lemma FlowCut(down: Bytes, up: Bytes, lost: Bytes, rest: Bytes, upClosed: bool, downClosed: bool)
    requires Flow(down, up + lost, rest, upClosed, downClosed)
    ensures Flow(down, up, rest, true, downClosed)
  {
    assert down + (up + lost) == (down + up) + lost;
    if !downClosed { PrefixOfPrefix(down + up, down + (up + lost), rest); }
  }

  lemma CutDownKeeps(l: Line, n: nat)
    requires l.Valid() && n <= |l.down.io.wire|
    ensures CutDown(l, n).Valid()
  {
    var l' := CutDown(l, n);
    assert l.down.io.wire == l'.down.io.wire + l.down.io.wire[n..];
    assert l.down == Append(l'.down, l.down.io.wire[n..]);
    AppendAhead(l'.down, l.down.io.wire[n..]);
    PrefixOfPrefix(l'.down.Ahead(), l.down.Ahead(), l.Rest());
  }

  lemma PrefixOfPrefix(a: Bytes, b: Bytes, c: Bytes)
    requires a <= b <= c
    ensures a <= c
  {
  }

  /** Closing a hop only lowers what may be expected. */
  lemma CloseKeeps(l: Line)
    ensures l.Valid() ==> CloseUp(l).Valid() && CloseDown(l).Valid()
  {
  }

  lemma FillDownKeeps(l: Line, chunk: nat, space: nat)
    requires l.Valid() && chunk <= |l.down.io.wire|
    ensures FillDown(l, chunk, space).Valid()
  {
    FillConserves(l.down, chunk, space);
  }

  lemma SwitchDownKeeps(l: Line)
    requires l.Valid() && l.down.dec.phase.Head?
    ensures SwitchDown(l).Valid() && SwitchDown(l).down.Bare()
  {
    SwitchConservesIffBetweenFrames(l.down);
  }

  /**
   A reader that still expects control frames decodes exactly the next control frame written: no user
   byte is taken for one, and no frame is damaged.
   */
  lemma TakeDownKeeps(l: Line)
    requires l.Valid() && (l.user != [] ==> l.taken < |l.ctrl|)
    ensures var (l', out) := TakeDown(l);
      && l'.Valid() && !out.Oversized?
      && (out.Payload? ==> l.taken < |l.ctrl| && out.bytes == l.ctrl[l.taken] && l'.down.dec.phase.Head?)
      && (!out.Payload? ==> l'.taken == l.taken)
  {
    TakeFrameConserves(l.down);
    if l.taken == |l.ctrl| { TakeNothing(l); } else { TakeNext(l); }
  }

  lemma TakeNothing(l: Line)
    requires l.Valid() && l.taken == |l.ctrl| && l.user == []
    ensures TakeDown(l) == (l, NeedMore)
  {
    assert l.ctrl[l.taken..] == [];
    assert l.down.Ahead() == [];
    assert |Held(l.down.dec)| == 0;
    assert l.down.dec.phase.Head? && l.down.dec.buf == [];
  }

  lemma TakeNext(l: Line)
    requires l.Valid() && l.taken < |l.ctrl|
    ensures var (l', out) := TakeDown(l);
      && l'.Valid() && !out.Oversized?
      && (out.Payload? ==> out.bytes == l.ctrl[l.taken])
  {
    var (l', out) := TakeDown(l);
    var q := l.ctrl[l.taken];
    var y := Frames(l.ctrl[l.taken + 1..]) + l.user[|l.delivered|..];
    assert l.ctrl[l.taken..][1..] == l.ctrl[l.taken + 1..];
    Assoc(Frame(q), Frames(l.ctrl[l.taken + 1..]), l.user[|l.delivered|..]);
    assert l.Rest() == Frame(q) + y;
    hide Frames, Frame;
    TakeFrameConserves(l.down);
    DecodeInFrame(l.down.dec, l.down.io.Undelivered(), q, y);
    if out.Payload? {
      assert l'.Rest() == y;
      FlowShift(Frame(q), l'.down.Ahead(), l.up.Ahead(), y, l.upClosed, l.downClosed);
    }
  }

  /** Taking the front off the reader's hop. */
  lemma FlowShift(front: Bytes, down: Bytes, up: Bytes, rest: Bytes, upClosed: bool, downClosed: bool)
    requires Flow(front + down, up, front + rest, upClosed, downClosed)
    ensures Flow(down, up, rest, upClosed, downClosed)
  {
    assert (front + rest)[|front|..] == rest && (front + down)[|front|..] == down;
    assert front + down + up == front + (down + up);
    assert (front + (down + up))[|front|..] == down + up;
  }

  lemma Advance(user: Bytes, seen: Bytes, data: Bytes)
    requires seen <= user && data <= user[|seen|..]
    ensures seen + data <= user && user[|seen|..] == data + user[|seen + data|..]
  {
    var todo := user[|seen|..];
    assert user == seen + todo && todo == data + todo[|data|..];
    assert user == (seen + data) + todo[|data|..];
  }

  /** User bytes that a reader takes off the line are the next ones written. */
  lemma DeliverKeeps(l: Line, down: Reader, data: Bytes)
    requires l.Valid() && l.taken == |l.ctrl| && down.Valid() && l.down.Ahead() == data + down.Ahead()
    ensures l.(down := down, delivered := l.delivered + data).Valid()
  {
    var l' := l.(down := down, delivered := l.delivered + data);
    assert l.ctrl[l.taken..] == [];
    assert l.Rest() == l.user[|l.delivered|..];
    Advance(l.user, l.delivered, data);
    assert l.Rest() == data + l'.Rest();
    FlowShift(data, down.Ahead(), l.up.Ahead(), l'.Rest(), l.upClosed, l.downClosed);
  }

  lemma ReadDownKeeps(l: Line, chunk: nat, space: nat)
    requires l.Valid() && l.taken == |l.ctrl| && l.down.Bare() && chunk <= |l.down.io.wire|
    ensures ReadDown(l, chunk, space).Valid()
  {
    ReadConserves(l.down.io, chunk, space);
    var (io, data) := ReadPipe(l.down.io, chunk, space);
    DeliverKeeps(l, l.down.(io := io), data);
  }

  lemma PollDownKeeps(l: Line, chunk: nat)
    requires l.Valid() && l.taken == |l.ctrl| && l.down.Bare() && chunk <= |l.down.io.wire|
    ensures PollDown(l, chunk).Valid()
  {
    PollConserves(l.down.io, chunk);
    var (io, data) := PollPipe(l.down.io, chunk);
    DeliverKeeps(l, l.down.(io := io), data);
  }

  /** If no hop was ever closed and nothing is under way, the reader has everything. */
  lemma DrainedLineIsComplete(l: Line)
    requires l.Valid() && !l.upClosed && !l.downClosed && l.up.Ahead() == [] && l.down.Ahead() == []
    ensures l.taken == |l.ctrl| && l.delivered == l.user
  {
    assert l.Rest() == [];
    assert l.user[|l.delivered|..] == [];
    assert l.user == l.delivered + l.user[|l.delivered|..];
  }

  // ---------- Nothing stays stuck ----------

  /** All bytes of the line have reached the decoder of its reader. */
  predicate Pumped(l: Line) { l.Valid() && Open(l) && l.up.Ahead() == [] && l.down.io.Undelivered() == [] }

  predicate Open(l: Line) { !l.upClosed && !l.downClosed }

  /** The line with the same history, its bytes further along. */
  predicate Same(l: Line, l': Line) {
    && l'.ctrl == l.ctrl && l'.user == l.user && l'.taken == l.taken && l'.delivered == l.delivered
    && l'.upClosed == l.upClosed && l'.downClosed == l.downClosed
  }

  /** The relay forwards its overflow, then everything on the wire. */
  function ForwardAll(l: Line): Line {
    var l1 := Forward(l, 0);
    Forward(l1, |l1.up.io.wire|)
  }

  /** The reader fills its buffer from the overflow, then with everything on the wire. */
  function FillAll(l: Line): Line {
    var l1 := FillDown(l, 0, |l.down.io.Undelivered()|);
    FillDown(l1, |l1.down.io.wire|, |l1.down.io.wire|)
  }

  lemma ForwardAllKeeps(l: Line)
    requires l.Valid() && Open(l)
    ensures var l' := ForwardAll(l); l'.Valid() && Same(l, l') && l'.up.Ahead() == [] && l'.down.dec == l.down.dec
  {
    ForwardKeeps(l, 0);
    var l1 := Forward(l, 0);
    ForwardKeeps(l1, |l1.up.io.wire|);
  }

  lemma FillAllKeeps(l: Line)
    requires l.Valid() && Open(l) && l.up.Ahead() == []
    ensures Pumped(FillAll(l)) && Same(l, FillAll(l))
  {
    var n := |l.down.io.Undelivered()|;
    FillDownKeeps(l, 0, n);
    var l1 := FillDown(l, 0, n);
    assert l1.down.io.overflow.None?;
    FillDownKeeps(l1, |l1.down.io.wire|, |l1.down.io.wire|);
  }

  /** The next control frame of a pumped line is there to be taken. */
  lemma PumpedLineYields(l: Line)
    requires Pumped(l) && l.taken < |l.ctrl|
    ensures TakeDown(l).1 == Payload(l.ctrl[l.taken])
  {
    var q := l.ctrl[l.taken];
    var y := Frames(l.ctrl[l.taken + 1..]) + l.user[|l.delivered|..];
    assert l.ctrl[l.taken..][1..] == l.ctrl[l.taken + 1..];
    Assoc(Frame(q), Frames(l.ctrl[l.taken + 1..]), l.user[|l.delivered|..]);
    assert l.Rest() == Frame(q) + y;
    assert l.down.Ahead() == Held(l.down.dec) + [] == Held(l.down.dec);
    assert l.down.Ahead() + [] == l.Rest();
    DecodeWholeFrame(l.down.dec, q, y);
  }
}
