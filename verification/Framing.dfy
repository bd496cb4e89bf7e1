/**
 The length-delimited frames that carry every control message (src/stream.rs, `StreamWithProtocol`).

 A frame is a four-byte big-endian length followed by that many payload bytes. The decoder strips the
 length as soon as it has arrived, before the payload is complete, and remembers it in its phase.
 */
module Framing {
  import opened Common

  /** Largest payload the codec sends or accepts. */
  const MAX_FRAME_LENGTH: nat := 8 * 1024 * 1024

  function LengthHead(n: nat): (head: Bytes)
    requires n <= MAX_FRAME_LENGTH
    ensures |head| == 4
  {
    [n / 0x100_0000, n / 0x1_0000 % 256, n / 256 % 256, n % 256]
  }

  /** The most significant byte comes first. */
  function HeadLength(head: Bytes): (n: nat)
    requires |head| == 4
    ensures n == head[0] as int * 0x100_0000 + head[1] as int * 0x1_0000 + head[2] as int * 0x100 + head[3] as int
  {
    var a: int, b: int, c: int, d: int := head[0], head[1], head[2], head[3];
    ((a * 256 + b) * 256 + c) * 256 + d
  }

  lemma LengthRoundTrip(n: nat)
    requires n <= MAX_FRAME_LENGTH
    ensures HeadLength(LengthHead(n)) == n
  {
    assert n / 0x1_0000 == n / 256 / 256;
    assert n / 0x100_0000 == n / 256 / 256 / 256;
  }

  lemma HeadRoundTrip(head: Bytes)
    requires |head| == 4 && HeadLength(head) <= MAX_FRAME_LENGTH
    ensures LengthHead(HeadLength(head)) == head
  {
    var a: int := head[0];
    var b: int := a * 256 + head[1];
    var c: int := b * 256 + head[2];
    var n: int := c * 256 + head[3];
    assert n / 256 == c && n % 256 == head[3];
    assert c / 256 == b && c % 256 == head[2];
    assert b / 256 == a && b % 256 == head[1];
    assert n / 0x1_0000 == n / 256 / 256;
    assert n / 0x100_0000 == n / 256 / 256 / 256;
  }

  /** The bytes of one frame. */
  function Frame(payload: Bytes): (bytes: Bytes)
    requires |payload| <= MAX_FRAME_LENGTH
    ensures |bytes| == 4 + |payload|
  {
    LengthHead(|payload|) + payload
  }

  predicate Sendable(payloads: seq<Bytes>) {
    forall i :: 0 <= i < |payloads| ==> |payloads[i]| <= MAX_FRAME_LENGTH
  }

  /** The bytes of a run of frames. */
  function Frames(payloads: seq<Bytes>): Bytes
    requires Sendable(payloads)
  {
    if payloads == [] then [] else Frame(payloads[0]) + Frames(payloads[1..])
  }

  lemma {:induction false} FramesAppend(payloads: seq<Bytes>, more: seq<Bytes>)
    requires Sendable(payloads) && Sendable(more)
    ensures Frames(payloads + more) == Frames(payloads) + Frames(more)
  {
    if payloads == [] {
      assert payloads + more == more;
    } else {
      FramesAppend(payloads[1..], more);
      assert (payloads + more)[1..] == payloads[1..] + more;
    }
  }

  lemma FramesOne(payload: Bytes)
    requires |payload| <= MAX_FRAME_LENGTH
    ensures Frames([payload]) == Frame(payload)
  {
    assert [payload][1..] == [];
  }

  // ---------- The decoder ----------

  /** `Head`: waiting for a length. `Body(n)`: the length n was stripped, its payload is awaited. */
  datatype Phase = Head | Body(length: nat)

  datatype Decoder = Decoder(phase: Phase, buf: Bytes) {
    predicate Valid() { phase.Body? ==> phase.length <= MAX_FRAME_LENGTH }
  }

  datatype Outcome = NeedMore | Payload(bytes: Bytes) | Oversized

  const FRESH_DECODER := Decoder(Head, [])

  function DecodeData(n: nat, buf: Bytes): (Decoder, Outcome) {
    if |buf| < n then (Decoder(Body(n), buf), NeedMore)
    else (Decoder(Head, buf[n..]), Payload(buf[..n]))
  }

  /** One call of the codec's `decode` on the read buffer. */
  function Decode(d: Decoder): (Decoder, Outcome) {
    match d.phase
    case Body(n) => DecodeData(n, d.buf)
    case Head =>
      if |d.buf| < 4 then (d, NeedMore)
      else
        var n := HeadLength(d.buf[..4]);
        if n > MAX_FRAME_LENGTH then (d, Oversized) else DecodeData(n, d.buf[4..])
  }

  /** The part of the byte stream that the decoder holds: a stripped length counts as still held. */
  function Held(d: Decoder): Bytes
    requires d.Valid()
  {
    (if d.phase.Body? then LengthHead(d.phase.length) else []) + d.buf
  }

  /** Decoding neither loses nor invents a byte, and a delivered payload leaves the phase at `Head`. */
  lemma DecodeConserves(d: Decoder)
    requires d.Valid()
    ensures var (d', out) := Decode(d);
      d'.Valid() &&
      (out.Payload? ==> |out.bytes| <= MAX_FRAME_LENGTH && d'.phase.Head?
                        && Held(d) == Frame(out.bytes) + Held(d')) &&
      (!out.Payload? ==> Held(d') == Held(d))
  {
    if d.phase.Head? && |d.buf| >= 4 {
      var n := HeadLength(d.buf[..4]);
      if n <= MAX_FRAME_LENGTH {
        HeadRoundTrip(d.buf[..4]);
        assert d.buf == d.buf[..4] + d.buf[4..];
        if |d.buf[4..]| >= n {
          assert d.buf[4..] == d.buf[4..][..n] + d.buf[4..][n..];
        }
      }
    } else if d.phase.Body? && |d.buf| >= d.phase.length {
      assert d.buf == d.buf[..d.phase.length] + d.buf[d.phase.length..];
    }
  }

  /**
   What the decoder reports depends only on the bytes it holds: a payload exactly if a whole frame is there,
   an oversized frame exactly if the length is there and too large, and otherwise that it needs more.
   */
  lemma DecodeReports(d: Decoder)
    requires d.Valid()
    ensures var held, out := Held(d), Decode(d).1;
      && (out.Oversized? <==> |held| >= 4 && HeadLength(held[..4]) > MAX_FRAME_LENGTH)
      && (out.Payload? <==>
            |held| >= 4 && HeadLength(held[..4]) <= MAX_FRAME_LENGTH && |held| >= 4 + HeadLength(held[..4]))
  {
    if d.phase.Body? {
      assert Held(d)[..4] == LengthHead(d.phase.length);
      LengthRoundTrip(d.phase.length);
    } else {
      assert Held(d) == d.buf;
    }
  }

  /** Two frames at the start of the same bytes are the same frame. */
  lemma FramePrefixUnique(p: Bytes, x: Bytes, q: Bytes, y: Bytes)
    requires |p| <= MAX_FRAME_LENGTH && |q| <= MAX_FRAME_LENGTH
    requires Frame(p) + x <= Frame(q) + y
    ensures p == q && x <= y
  {
    var s, t := Frame(p) + x, Frame(q) + y;
    assert s[..4] == LengthHead(|p|) && t[..4] == LengthHead(|q|);
    assert t[..4] == s[..4];
    LengthRoundTrip(|p|);
    LengthRoundTrip(|q|);
    assert s[4..4 + |p|] == p && t[4..4 + |q|] == q;
    assert s[4 + |p|..] == x && t[4 + |q|..] == y;
  }

  /** A decoder holding a prefix of a framed stream never reports an oversized frame. */
  lemma DecodeInFrame(d: Decoder, rest: Bytes, q: Bytes, y: Bytes)
    requires d.Valid() && |q| <= MAX_FRAME_LENGTH
    requires Held(d) + rest <= Frame(q) + y
    ensures var (d', out) := Decode(d);
      !out.Oversized? && (out.Payload? ==> out.bytes == q && d'.Valid() && Held(d') + rest <= y)
  {
    var (d', out) := Decode(d);
    DecodeConserves(d);
    if out.Payload? {
      assert Held(d) + rest == Frame(out.bytes) + (Held(d') + rest);
      FramePrefixUnique(out.bytes, Held(d') + rest, q, y);
    } else if out.Oversized? {
      var t := Frame(q) + y;
      assert (Held(d) + rest)[..4] == d.buf[..4];
      assert t[..4] == LengthHead(|q|);
      LengthRoundTrip(|q|);
    }
  }

  /** A decoder that holds a whole frame delivers its payload. */
  lemma DecodeWholeFrame(d: Decoder, q: Bytes, y: Bytes)
    requires d.Valid() && |q| <= MAX_FRAME_LENGTH && Held(d) == Frame(q) + y
    ensures Decode(d).1 == Payload(q)
  {
    var s := Frame(q) + y;
    assert s[..4] == LengthHead(|q|) && s[4..] == q + y;
    LengthRoundTrip(|q|);
    if d.phase.Body? {
      assert Held(d)[..4] == LengthHead(d.phase.length) && Held(d)[4..] == d.buf;
      LengthRoundTrip(d.phase.length);
    } else {
      assert Held(d) == d.buf;
    }
    assert (q + y)[..|q|] == q;
  }

  // ---------- The reference: one decode of a whole byte string ----------

  /** The payloads of all complete frames at the start of `s`. */
  function Parse(s: Bytes): (payloads: seq<Bytes>)
    ensures Sendable(payloads)
  {
    if |s| < 4 then []
    else
      var n := HeadLength(s[..4]);
      if n > MAX_FRAME_LENGTH || |s| < 4 + n then []
      else [s[4..4 + n]] + Parse(s[4 + n..])
  }

  lemma ParseFrame(p: Bytes, rest: Bytes)
    requires |p| <= MAX_FRAME_LENGTH
    ensures Parse(Frame(p) + rest) == [p] + Parse(rest)
  {
    var s := Frame(p) + rest;
    assert s[..4] == LengthHead(|p|);
    LengthRoundTrip(|p|);
    assert s[4..4 + |p|] == p && s[4 + |p|..] == rest;
  }

  /** `Parse` undoes `Frames`, whatever follows. */
  lemma {:induction false} ParseFrames(payloads: seq<Bytes>, tail: Bytes)
    requires Sendable(payloads)
    ensures Parse(Frames(payloads) + tail) == payloads + Parse(tail)
  {
    if payloads == [] {
      assert Frames(payloads) + tail == tail;
    } else {
      var rest := Frames(payloads[1..]) + tail;
      Assoc(Frame(payloads[0]), Frames(payloads[1..]), tail);
      ParseFrame(payloads[0], rest);
      ParseFrames(payloads[1..], tail);
      assert payloads == [payloads[0]] + payloads[1..];
      Assoc([payloads[0]], payloads[1..], Parse(tail));
    }
  }
}
