/**
 One transport stream read through successive framed protocols (src/stream.rs, the `Into`/`From`
 conversions): hello frames, then build frames, then raw user bytes.

 A `Reader` is a frame decoder on top of a `Transport.Pipe`. Converting a protocol stream back into a
 transport stream drops the decoder and reinserts its read buffer; wrapping a transport stream starts a
 fresh decoder. So a reader with a fresh decoder stands both for the bare stream and for a stream that
 was just wrapped.
 */
module ProtocolReader {
  import opened Common
  import opened Framing
  import opened Transport

  datatype Reader = Reader(io: Pipe, dec: Decoder) {
    predicate Valid() { io.Valid() && dec.Valid() }

    /** The stream is bare: a frame decoder holds nothing back. */
    predicate Bare() { dec == FRESH_DECODER }

    /** All bytes of the stream that were not yet handed to the user of this reader. */
    function Ahead(): Bytes
      requires Valid()
    {
      Held(dec) + io.Undelivered()
    }
  }

  /** The framed stream reads into its buffer. */
  function Fill(r: Reader, chunk: nat, space: nat): Reader
    requires chunk <= |r.io.wire|
  {
    var (io, data) := ReadPipe(r.io, chunk, space);
    Reader(io, r.dec.(buf := r.dec.buf + data))
  }

  /** The framed stream decodes from its buffer. */
  function TakeFrame(r: Reader): (Reader, Outcome) {
    var (dec, out) := Decode(r.dec);
    (r.(dec := dec), out)
  }

  /** The conversion from a protocol stream into a transport stream. */
  function IntoTransport(r: Reader): Reader {
    Reader(Reinsert(r.io, r.dec.buf), FRESH_DECODER)
  }

  lemma FillConserves(r: Reader, chunk: nat, space: nat)
    requires r.Valid() && chunk <= |r.io.wire|
    ensures Fill(r, chunk, space).Valid() && Fill(r, chunk, space).Ahead() == r.Ahead()
  {
    ReadConserves(r.io, chunk, space);
    var (io, data) := ReadPipe(r.io, chunk, space);
    var head := if r.dec.phase.Body? then LengthHead(r.dec.phase.length) else [];
    assert head + (r.dec.buf + data) + io.Undelivered() == head + r.dec.buf + (data + io.Undelivered());
  }

  lemma TakeFrameConserves(r: Reader)
    requires r.Valid()
    ensures var (r', out) := TakeFrame(r);
      r'.Valid() &&
      (out.Payload? ==> |out.bytes| <= MAX_FRAME_LENGTH && r'.dec.phase.Head?
                        && r.Ahead() == Frame(out.bytes) + r'.Ahead()) &&
      (!out.Payload? ==> r'.Ahead() == r.Ahead())
  {
    DecodeConserves(r.dec);
  }

  /**
   A switch of protocol keeps every byte exactly if it is made between two frames. Made while a payload
   is incomplete it loses the four bytes of the length that the decoder has already stripped.
   */
  lemma SwitchConservesIffBetweenFrames(r: Reader)
    requires r.Valid()
    ensures IntoTransport(r).Valid()
    ensures IntoTransport(r).Ahead() == r.Ahead() <==> r.dec.phase.Head?
  {
    ReinsertConserves(r.io, r.dec.buf);
    if r.dec.phase.Body? {
      assert |r.Ahead()| == |IntoTransport(r).Ahead()| + 4;
    } else {
      assert r.dec.buf + r.io.Undelivered() == r.Ahead();
    }
  }

  // ---------- Whole sessions ----------

  datatype Action =
    | FillBuffer(chunk: nat, space: nat)
    | NextFrame
    | Switch
    | PollBytes(chunk: nat)
    | ReadBytes(chunk: nat, space: nat)

  /** What the user of the stream received. */
  datatype Item = Control(payload: Bytes) | User(bytes: Bytes)

  datatype Session = Session(reader: Reader, log: seq<Item>)

  /** One action; an action that is not possible in this state changes nothing. */
  function Step(s: Session, a: Action): Session {
    match a
    case FillBuffer(chunk, space) =>
      if chunk > |s.reader.io.wire| then s else s.(reader := Fill(s.reader, chunk, space))
    case NextFrame =>
      var (r, out) := TakeFrame(s.reader);
      if out.Payload? then Session(r, s.log + [Control(out.bytes)]) else s.(reader := r)
    case Switch => s.(reader := IntoTransport(s.reader))
    case PollBytes(chunk) =>
      if chunk > |s.reader.io.wire| || !s.reader.Bare() then s else
      var (io, data) := PollPipe(s.reader.io, chunk);
      Session(s.reader.(io := io), s.log + [User(data)])
    case ReadBytes(chunk, space) =>
      if chunk > |s.reader.io.wire| || !s.reader.Bare() then s else
      var (io, data) := ReadPipe(s.reader.io, chunk, space);
      Session(s.reader.(io := io), s.log + [User(data)])
  }

  function Run(s: Session, actions: seq<Action>): Session
    decreases |actions|
  {
    if actions == [] then s else Run(Step(s, actions[0]), actions[1..])
  }

  /** Every protocol switch of the run happens between two frames. */
  predicate SwitchesBetweenFrames(s: Session, actions: seq<Action>)
    decreases |actions|
  {
    actions != [] ==>
      (actions[0].Switch? ==> s.reader.dec.phase.Head?) && SwitchesBetweenFrames(Step(s, actions[0]), actions[1..])
  }

  predicate ItemOk(item: Item) { item.Control? ==> |item.payload| <= MAX_FRAME_LENGTH }

  predicate LogOk(log: seq<Item>) { forall i :: 0 <= i < |log| ==> ItemOk(log[i]) }

  function ItemBytes(item: Item): Bytes
    requires ItemOk(item)
  {
    if item.Control? then Frame(item.payload) else item.bytes
  }

  /** The part of the stream that the received items account for. */
  function Consumed(log: seq<Item>): Bytes
    requires LogOk(log)
  {
    if log == [] then [] else Consumed(log[..|log| - 1]) + ItemBytes(log[|log| - 1])
  }

  lemma ConsumedSnoc(log: seq<Item>, item: Item)
    requires LogOk(log) && ItemOk(item)
    ensures LogOk(log + [item]) && Consumed(log + [item]) == Consumed(log) + ItemBytes(item)
  {
    assert (log + [item])[..|log|] == log;
  }

  lemma {:induction false} ConsumedAppend(log: seq<Item>, more: seq<Item>)
    requires LogOk(log) && LogOk(more)
    ensures LogOk(log + more) && Consumed(log + more) == Consumed(log) + Consumed(more)
  {
    if more == [] {
      assert log + more == log;
    } else {
      var front, last := more[..|more| - 1], more[|more| - 1];
      ConsumedAppend(log, front);
      assert more == front + [last];
      Assoc(log, front, [last]);
      ConsumedSnoc(log + front, last);
      Assoc(Consumed(log), Consumed(front), ItemBytes(last));
    }
  }

  /** Handing over the front of the stream as an item moves its bytes to the log. */
  lemma Delivered(log: seq<Item>, item: Item, before: Bytes, after: Bytes)
    requires LogOk(log) && ItemOk(item) && before == ItemBytes(item) + after
    ensures LogOk(log + [item]) && Consumed(log + [item]) + after == Consumed(log) + before
  {
    ConsumedSnoc(log, item);
    Assoc(Consumed(log), ItemBytes(item), after);
  }

  lemma NextFrameConserves(s: Session)
    requires s.reader.Valid() && LogOk(s.log)
    ensures var s' := Step(s, NextFrame);
      s'.reader.Valid() && LogOk(s'.log)
      && Consumed(s'.log) + s'.reader.Ahead() == Consumed(s.log) + s.reader.Ahead()
  {
    TakeFrameConserves(s.reader);
    var (r, out) := TakeFrame(s.reader);
    if out.Payload? { Delivered(s.log, Control(out.bytes), s.reader.Ahead(), r.Ahead()); }
  }

  lemma BareStepConserves(s: Session, a: Action)
    requires s.reader.Valid() && LogOk(s.log) && (a.PollBytes? || a.ReadBytes?)
    ensures var s' := Step(s, a);
      s'.reader.Valid() && LogOk(s'.log)
      && Consumed(s'.log) + s'.reader.Ahead() == Consumed(s.log) + s.reader.Ahead()
  {
    if a.chunk <= |s.reader.io.wire| && s.reader.Bare() {
      if a.PollBytes? { PollConserves(s.reader.io, a.chunk); } else { ReadConserves(s.reader.io, a.chunk, a.space); }
      var (io, data) :=
        if a.PollBytes? then PollPipe(s.reader.io, a.chunk) else ReadPipe(s.reader.io, a.chunk, a.space);
      var r := s.reader.(io := io);
      assert r.Ahead() == io.Undelivered() && s.reader.Ahead() == s.reader.io.Undelivered();
      Delivered(s.log, User(data), s.reader.Ahead(), r.Ahead());
    }
  }

  lemma StepConserves(s: Session, a: Action)
    requires s.reader.Valid() && LogOk(s.log)
    requires a.Switch? ==> s.reader.dec.phase.Head?
    ensures var s' := Step(s, a);
      s'.reader.Valid() && LogOk(s'.log)
      && Consumed(s'.log) + s'.reader.Ahead() == Consumed(s.log) + s.reader.Ahead()
  {
    match a
    case FillBuffer(chunk, space) =>
      if chunk <= |s.reader.io.wire| { FillConserves(s.reader, chunk, space); }
    case NextFrame => NextFrameConserves(s);
    case Switch => SwitchConservesIffBetweenFrames(s.reader);
    case PollBytes(_) => BareStepConserves(s, a);
    case ReadBytes(_, _) => BareStepConserves(s, a);
  }

  lemma {:induction false} RunConserves(s: Session, actions: seq<Action>)
    requires s.reader.Valid() && LogOk(s.log) && SwitchesBetweenFrames(s, actions)
    ensures var s' := Run(s, actions);
      s'.reader.Valid() && LogOk(s'.log)
      && Consumed(s'.log) + s'.reader.Ahead() == Consumed(s.log) + s.reader.Ahead()
    decreases |actions|
  {
    if actions != [] {
      StepConserves(s, actions[0]);
      RunConserves(Step(s, actions[0]), actions[1..]);
    }
  }

  predicate OnlyControl(log: seq<Item>) { forall i :: 0 <= i < |log| ==> log[i].Control? }

  function Payloads(log: seq<Item>): (ps: seq<Bytes>)
    requires OnlyControl(log)
    ensures |ps| == |log|
    ensures forall i :: 0 <= i < |ps| ==> ps[i] == log[i].payload
  {
    if log == [] then [] else Payloads(log[..|log| - 1]) + [log[|log| - 1].payload]
  }

  lemma {:induction false} ControlIsFrames(log: seq<Item>)
    requires LogOk(log) && OnlyControl(log)
    ensures Sendable(Payloads(log)) && Consumed(log) == Frames(Payloads(log))
  {
    if log != [] {
      var last := log[|log| - 1];
      ControlIsFrames(log[..|log| - 1]);
      FramesAppend(Payloads(log[..|log| - 1]), [last.payload]);
      FramesOne(last.payload);
    }
  }

  lemma LogDecodesOnce(front: seq<Item>, rest: seq<Item>, ahead: Bytes)
    requires LogOk(front) && LogOk(rest) && OnlyControl(front)
    ensures LogOk(front + rest)
    ensures Parse(Consumed(front + rest) + ahead) == Payloads(front) + Parse(Consumed(rest) + ahead)
  {
    ConsumedAppend(front, rest);
    ControlIsFrames(front);
    Assoc(Consumed(front), Consumed(rest), ahead);
    ParseFrames(Payloads(front), Consumed(rest) + ahead);
  }

  /**
   Independence from chunking and from protocol switches: after any run that switches between frames,
   the control payloads received first, together with everything after them, are one decode of the whole
   byte stream.
   */
  lemma RunDecodesOnce(start: Reader, actions: seq<Action>, k: nat)
    requires start.Valid() && SwitchesBetweenFrames(Session(start, []), actions)
    requires k <= |Run(Session(start, []), actions).log|
    requires OnlyControl(Run(Session(start, []), actions).log[..k])
    ensures var s := Run(Session(start, []), actions);
      s.reader.Valid() && LogOk(s.log[k..]) &&
      Parse(start.Ahead()) == Payloads(s.log[..k]) + Parse(Consumed(s.log[k..]) + s.reader.Ahead())
  {
    var s := Run(Session(start, []), actions);
    RunConserves(Session(start, []), actions);
    assert start.Ahead() == Consumed([]) + start.Ahead();
    hide Run;
    PartsOk(s.log, k);
    LogDecodesOnce(s.log[..k], s.log[k..], s.reader.Ahead());
    hide Parse, Consumed, SwitchesBetweenFrames, LogOk, OnlyControl;
  }

  lemma PartsOk(log: seq<Item>, k: nat)
    requires LogOk(log) && k <= |log|
    ensures LogOk(log[..k]) && LogOk(log[k..]) && log[..k] + log[k..] == log
  {
  }

  /** The first k items that a session receives are control frames, and it switches between frames. */
  predicate StartsWithFrames(start: Reader, actions: seq<Action>, k: nat) {
    && start.Valid() && SwitchesBetweenFrames(Session(start, []), actions)
    && k <= |Run(Session(start, []), actions).log| && OnlyControl(Run(Session(start, []), actions).log[..k])
  }

  lemma PayloadsInjective(l1: seq<Item>, l2: seq<Item>)
    requires OnlyControl(l1) && OnlyControl(l2) && Payloads(l1) <= Payloads(l2)
    ensures l1 <= l2
  {
    assert |l1| == |Payloads(l1)| && |l2| == |Payloads(l2)|;
    forall i | 0 <= i < |l1|
      ensures l1[i] == l2[i]
    {
      assert l1[i] == Control(Payloads(l1)[i]) && l2[i] == Control(Payloads(l2)[i]);
    }
  }

  /**
   Two sessions on the same bytes, however chunked: as far as both receive control frames they receive the
   same ones, and behind them the bytes received and the bytes ahead are the same string for both.
   */
  lemma ChunkingIsInvisible(r1: Reader, actions1: seq<Action>, k1: nat, r2: Reader, actions2: seq<Action>, k2: nat)
    requires StartsWithFrames(r1, actions1, k1) && StartsWithFrames(r2, actions2, k2) && k1 <= k2
    requires r1.Ahead() == r2.Ahead()
    ensures var s1, s2 := Run(Session(r1, []), actions1), Run(Session(r2, []), actions2);
      && s1.log[..k1] == s2.log[..k1]
      && s1.reader.Valid() && s2.reader.Valid() && LogOk(s1.log) && LogOk(s2.log)
      && Consumed(s1.log[k1..]) + s1.reader.Ahead() == Consumed(s2.log[k1..]) + s2.reader.Ahead()
  {
    var s1, s2 := Run(Session(r1, []), actions1), Run(Session(r2, []), actions2);
    RunDecodesOnce(r1, actions1, k1);
    RunDecodesOnce(r2, actions2, k2);
    RunConserves(Session(r1, []), actions1);
    RunConserves(Session(r2, []), actions2);
    hide Run;
    SameFront(s1.log[..k1], s2.log[..k2], Parse(Consumed(s1.log[k1..]) + s1.reader.Ahead()),
      Parse(Consumed(s2.log[k2..]) + s2.reader.Ahead()));
    assert s2.log[..k2][..k1] == s2.log[..k1];
    SameRest(s1.log, s2.log, k1, s1.reader.Ahead(), s2.reader.Ahead());
  }

  lemma SameFront(front1: seq<Item>, front2: seq<Item>, rest1: seq<Bytes>, rest2: seq<Bytes>)
    requires OnlyControl(front1) && OnlyControl(front2) && |front1| <= |front2|
    requires Payloads(front1) + rest1 == Payloads(front2) + rest2
    ensures front1 == front2[..|front1|]
  {
    var p1, p2 := Payloads(front1), Payloads(front2);
    assert p1 == (p1 + rest1)[..|p1|] == (p2 + rest2)[..|p1|] == p2[..|p1|];
    PayloadsInjective(front1, front2);
  }

  lemma SameRest(log1: seq<Item>, log2: seq<Item>, k: nat, ahead1: Bytes, ahead2: Bytes)
    requires LogOk(log1) && LogOk(log2) && k <= |log1| && k <= |log2| && log1[..k] == log2[..k]
    requires Consumed(log1) + ahead1 == Consumed(log2) + ahead2
    ensures Consumed(log1[k..]) + ahead1 == Consumed(log2[k..]) + ahead2
  {
    assert log1 == log1[..k] + log1[k..] && log2 == log1[..k] + log2[k..];
    ConsumedAppend(log1[..k], log1[k..]);
    ConsumedAppend(log1[..k], log2[k..]);
    var front := Consumed(log1[..k]);
    Assoc(front, Consumed(log1[k..]), ahead1);
    Assoc(front, Consumed(log2[k..]), ahead2);
    assert (front + (Consumed(log1[k..]) + ahead1))[|front|..] == Consumed(log1[k..]) + ahead1;
    assert (front + (Consumed(log2[k..]) + ahead2))[|front|..] == Consumed(log2[k..]) + ahead2;
  }

  /** Two sessions that read the same bytes to the end as frames receive the same items. */
  lemma DrainedSessionsAgree(r1: Reader, actions1: seq<Action>, r2: Reader, actions2: seq<Action>)
    requires StartsWithFrames(r1, actions1, |Run(Session(r1, []), actions1).log|)
    requires StartsWithFrames(r2, actions2, |Run(Session(r2, []), actions2).log|)
    requires r1.Ahead() == r2.Ahead()
    requires var r := Run(Session(r1, []), actions1).reader; r.Valid() && r.Ahead() == []
    requires var r := Run(Session(r2, []), actions2).reader; r.Valid() && r.Ahead() == []
    ensures Run(Session(r1, []), actions1).log == Run(Session(r2, []), actions2).log
  {
    DrainedPayloads(r1, actions1);
    DrainedPayloads(r2, actions2);
    hide Run;
    var l1, l2 := Run(Session(r1, []), actions1).log, Run(Session(r2, []), actions2).log;
    assert l1[..|l1|] == l1 && l2[..|l2|] == l2;
    PayloadsInjective(l1, l2);
    assert |l1| == |l2|;
  }

  lemma DrainedPayloads(start: Reader, actions: seq<Action>)
    requires StartsWithFrames(start, actions, |Run(Session(start, []), actions).log|)
    requires var r := Run(Session(start, []), actions).reader; r.Valid() && r.Ahead() == []
    ensures var log := Run(Session(start, []), actions).log; OnlyControl(log) && Payloads(log) == Parse(start.Ahead())
  {
    var log := Run(Session(start, []), actions).log;
    assert log[..|log|] == log && log[|log|..] == [];
    RunDecodesOnce(start, actions, |log|);
    assert Parse([]) == [];
  }

  // ---------- Everything can be read ----------

  function Controls(payloads: seq<Bytes>): (log: seq<Item>)
    ensures |log| == |payloads| && forall i :: 0 <= i < |log| ==> log[i] == Control(payloads[i])
  {
    if payloads == [] then [] else [Control(payloads[0])] + Controls(payloads[1..])
  }

  lemma {:induction false} RunAppend(s: Session, actions: seq<Action>, more: seq<Action>)
    ensures Run(s, actions + more) == Run(Run(s, actions), more)
    decreases |actions|
  {
    if actions == [] {
      assert actions + more == more;
    } else {
      assert (actions + more)[0] == actions[0] && (actions + more)[1..] == actions[1..] + more;
      RunAppend(Step(s, actions[0]), actions[1..], more);
    }
  }

  lemma RunTwo(s: Session, a: Action, b: Action)
    ensures Run(s, [a, b]) == Step(Step(s, a), b)
  {
    hide Step;
    assert [a, b][1..] == [b] && [b][1..] == [];
    assert Run(Step(s, a), [b]) == Step(Step(s, a), b);
  }

  /** Two reads bring all that is left of the stream into the buffer. */
  lemma BufferAll(s: Session) returns (actions: seq<Action>)
    requires s.reader.Valid()
    ensures var s' := Run(s, actions);
      s'.log == s.log && s'.reader.Valid() && s'.reader.io.Undelivered() == [] && s'.reader.Ahead() == s.reader.Ahead()
    ensures forall i :: 0 <= i < |actions| ==> actions[i].FillBuffer?
  {
    var r, n := s.reader, |s.reader.io.Undelivered()|;
    FillConserves(r, 0, n);
    var r1 := Fill(r, 0, n);
    assert r1.io.overflow.None?;
    var m := |r1.io.wire|;
    FillConserves(r1, m, m);
    actions := [FillBuffer(0, n), FillBuffer(m, m)];
    RunTwo(s, FillBuffer(0, n), FillBuffer(m, m));
    hide Run;
  }

  /** A buffer that holds whole frames yields them one by one. */
  lemma {:induction false} FramesComeOut(s: Session, payloads: seq<Bytes>, tail: Bytes) returns (actions: seq<Action>)
    requires s.reader.Valid() && s.reader.io.Undelivered() == [] && Sendable(payloads)
    requires s.reader.Ahead() == Frames(payloads) + tail
    ensures var s' := Run(s, actions);
      s'.log == s.log + Controls(payloads) && s'.reader.Valid() && s'.reader.Ahead() == tail
    ensures forall i :: 0 <= i < |actions| ==> actions[i].NextFrame?
    decreases |payloads|
  {
    if payloads == [] {
      actions := [];
      assert s.log + [] == s.log && [] + tail == tail;
    } else {
      var p, rest := payloads[0], Frames(payloads[1..]) + tail;
      Assoc(Frame(p), Frames(payloads[1..]), tail);
      NextFrameComesOut(s, p, rest);
      var s1 := Step(s, NextFrame);
      var more := FramesComeOut(s1, payloads[1..], tail);
      actions := [NextFrame] + more;
      assert actions[1..] == more;
      Assoc(s.log, [Control(p)], Controls(payloads[1..]));
    }
  }

  lemma NextFrameComesOut(s: Session, p: Bytes, rest: Bytes)
    requires s.reader.Valid() && s.reader.io.Undelivered() == [] && |p| <= MAX_FRAME_LENGTH
    requires s.reader.Ahead() == Frame(p) + rest
    ensures var s1 := Step(s, NextFrame);
      && s1.log == s.log + [Control(p)] && s1.reader.Valid()
      && s1.reader.io.Undelivered() == [] && s1.reader.Ahead() == rest
  {
    var d := s.reader.dec;
    assert Held(d) + [] == Held(d);
    DecodeWholeFrame(d, p, rest);
    TakeFrameConserves(s.reader);
    var (r, _) := TakeFrame(s.reader);
    assert (Frame(p) + r.Ahead())[|Frame(p)|..] == r.Ahead() && (Frame(p) + rest)[|Frame(p)|..] == rest;
  }

  /** Whatever part of it is buffered, a session can receive all frames of a framed stream, in order. */
  lemma WholeStreamCanBeRead(s: Session, payloads: seq<Bytes>, tail: Bytes) returns (actions: seq<Action>)
    requires s.reader.Valid() && Sendable(payloads) && s.reader.Ahead() == Frames(payloads) + tail
    ensures var s' := Run(s, actions);
      s'.log == s.log + Controls(payloads) && s'.reader.Valid() && s'.reader.Ahead() == tail
    ensures forall i :: 0 <= i < |actions| ==> !actions[i].Switch?
  {
    var fill := BufferAll(s);
    hide Run;
    var frames := FramesComeOut(Run(s, fill), payloads, tail);
    RunAppend(s, fill, frames);
    actions := fill + frames;
  }
}
