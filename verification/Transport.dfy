/**
 The strategy-independent byte stream of src/strategies/mod.rs: a transport below, and an overflow buffer
 for bytes that were read from the transport but are still to be served.
 */
module Transport {
  import opened Common

  // ---------- Specification on values ----------

  /** `overflow` is served before `wire`, the bytes the transport has yet to hand over. */
  datatype Pipe = Pipe(overflow: Option<Bytes>, wire: Bytes) {
    /** An overflow buffer is never stored empty: a reader would take it for the end of the stream. */
    predicate Valid() { overflow != Some([]) }

    function Undelivered(): Bytes { (if overflow.Some? then overflow.value else []) + wire }
  }

  /** The unread rest of a buffer after `n` bytes, or nothing if none is left. */
  function Rest(data: Bytes, n: nat): Option<Bytes>
    requires n <= |data|
  {
    if |data| > n then Some(data[n..]) else None
  }

  function Min(a: nat, b: nat): nat { if a < b then a else b }

  function Reinsert(p: Pipe, data: Bytes): Pipe {
    if data == [] then p
    else if p.overflow.Some? then p.(overflow := Some(data + p.overflow.value))
    else p.(overflow := Some(data))
  }

  /** Serves the whole overflow, or else one transport chunk of `chunk` bytes. */
  function PollPipe(p: Pipe, chunk: nat): (Pipe, Bytes)
    requires chunk <= |p.wire|
  {
    if p.overflow.Some? then (p.(overflow := None), p.overflow.value)
    else (Pipe(None, p.wire[chunk..]), p.wire[..chunk])
  }

  /** Serves at most `space` bytes; what remains of the chunk becomes the overflow. */
  function ReadPipe(p: Pipe, chunk: nat, space: nat): (Pipe, Bytes)
    requires chunk <= |p.wire|
  {
    var (p', data) := PollPipe(p, chunk);
    var n := Min(|data|, space);
    (p'.(overflow := Rest(data, n)), data[..n])
  }

  /** A poll conserves the data, and returns nothing only without data. */
  lemma PollConserves(p: Pipe, chunk: nat)
    requires chunk <= |p.wire|
    ensures var (p', data) := PollPipe(p, chunk);
      && p'.overflow.None? && data + p'.Undelivered() == p.Undelivered()
      && (p.Valid() && (p.wire != [] ==> chunk > 0) ==> (data == [] <==> p.Undelivered() == []))
  {
    assert p.wire == p.wire[..chunk] + p.wire[chunk..];
  }

  /**
   A read conserves the data, and returns nothing only without data or without space. It fills the space
   unless it has emptied the overflow and the chunk.
   */
  lemma ReadConserves(p: Pipe, chunk: nat, space: nat)
    requires chunk <= |p.wire|
    ensures var (p', data) := ReadPipe(p, chunk, space);
      && p'.Valid() && data + p'.Undelivered() == p.Undelivered()
      && (p.Valid() && (p.wire != [] ==> chunk > 0) ==> (data == [] <==> space == 0 || p.Undelivered() == []))
      && |data| <= space && (|data| < space ==> p'.overflow.None?)
  {
    var (_, data) := PollPipe(p, chunk);
    PollConserves(p, chunk);
    var n := Min(|data|, space);
    assert data == data[..n] + data[n..];
  }

  lemma ReinsertConserves(p: Pipe, data: Bytes)
    requires p.Valid()
    ensures Reinsert(p, data).Valid()
    ensures Reinsert(p, data).Undelivered() == data + p.Undelivered()
  {
  }

  /** The calls a user of the stream can make. `PutBack(n)` reinserts the last n delivered bytes. */
  datatype Call = Poll(chunk: nat) | Read(chunk: nat, space: nat) | PutBack(n: nat)

  datatype Usage = Usage(pipe: Pipe, delivered: Bytes)

  /** One call; a call that is not possible in this state changes nothing. */
  function Step(s: Usage, c: Call): Usage {
    match c
    case Poll(chunk) =>
      if chunk > |s.pipe.wire| then s else
      var (p, data) := PollPipe(s.pipe, chunk);
      Usage(p, s.delivered + data)
    case Read(chunk, space) =>
      if chunk > |s.pipe.wire| then s else
      var (p, data) := ReadPipe(s.pipe, chunk, space);
      Usage(p, s.delivered + data)
    case PutBack(n) =>
      if n > |s.delivered| then s else
      var keep := |s.delivered| - n;
      Usage(Reinsert(s.pipe, s.delivered[keep..]), s.delivered[..keep])
  }

  function Run(s: Usage, calls: seq<Call>): Usage
    decreases |calls|
  {
    if calls == [] then s else Run(Step(s, calls[0]), calls[1..])
  }

  lemma StepConserves(s: Usage, c: Call)
    requires s.pipe.Valid()
    ensures Step(s, c).pipe.Valid()
    ensures Step(s, c).delivered + Step(s, c).pipe.Undelivered() == s.delivered + s.pipe.Undelivered()
  {
    match c
    case Poll(chunk) =>
      if chunk <= |s.pipe.wire| {
        PollConserves(s.pipe, chunk);
        var (p, data) := PollPipe(s.pipe, chunk);
        Assoc(s.delivered, data, p.Undelivered());
      }
    case Read(chunk, space) =>
      if chunk <= |s.pipe.wire| {
        ReadConserves(s.pipe, chunk, space);
        var (p, data) := ReadPipe(s.pipe, chunk, space);
        Assoc(s.delivered, data, p.Undelivered());
      }
    case PutBack(n) => PutBackConserves(s, n);
  }

  lemma PutBackConserves(s: Usage, n: nat)
    requires s.pipe.Valid()
    ensures var s' := Step(s, PutBack(n));
      s'.pipe.Valid() && s'.delivered + s'.pipe.Undelivered() == s.delivered + s.pipe.Undelivered()
  {
    if n <= |s.delivered| {
      var keep := |s.delivered| - n;
      ReinsertConserves(s.pipe, s.delivered[keep..]);
      Assoc(s.delivered[..keep], s.delivered[keep..], s.pipe.Undelivered());
      assert s.delivered == s.delivered[..keep] + s.delivered[keep..];
    }
  }

  /** Every interleaving of reads, polls and reinsertions serves the bytes in order, once each. */
  lemma {:induction false} RunConserves(s: Usage, calls: seq<Call>)
    requires s.pipe.Valid()
    ensures var s' := Run(s, calls);
      s'.pipe.Valid() && s'.delivered + s'.pipe.Undelivered() == s.delivered + s.pipe.Undelivered()
    decreases |calls|
  {
    if calls != [] {
      StepConserves(s, calls[0]);
      RunConserves(Step(s, calls[0]), calls[1..]);
    }
  }

  // ---------- The stream object ----------

  /** What one poll of the transport yields; after the last event the transport is at its end. */
  datatype Arrival = Chunk(data: Bytes) | Pending | Broken

  datatype Polled = NotReady | Ready(data: Option<Bytes>) | Failed

  datatype ReadResult = Count(n: nat) | WouldBlock | ReadFailed

  function Arriving(events: seq<Arrival>): Bytes {
    if events == [] then []
    else (if events[0].Chunk? then events[0].data else []) + Arriving(events[1..])
  }

  /** Size of the chunk the next transport poll hands over. */
  function NextChunk(events: seq<Arrival>): (n: nat)
    ensures n <= |Arriving(events)|
  {
    if events != [] && events[0].Chunk? then |events[0].data| else 0
  }

  class Stream {
    var inner: seq<Arrival>
    var readOverflow: Option<Bytes>

    /** The stream as a value of the specification. */
    function Abs(): Pipe
      reads this
    {
      Pipe(readOverflow, Arriving(inner))
    }

    constructor (events: seq<Arrival>)
      ensures Abs() == Pipe(None, Arriving(events)) && inner == events
    {
      inner, readOverflow := events, None;
    }

    method ReinsertData(data: Bytes)
      modifies `readOverflow
      ensures Abs() == Reinsert(old(Abs()), data)
    {
      if data == [] {
        return;
      }
      match readOverflow {
        case Some(overflow) => readOverflow := Some(data + overflow);
        case None => readOverflow := Some(data);
      }
    }

    /** One poll of the transport below. */
    method PollInner() returns (r: Polled)
      modifies `inner
      ensures inner == if old(inner) == [] then [] else old(inner)[1..]
      ensures old(inner) == [] <==> r == Ready(None)
      ensures r.Ready? && r.data.Some? <==> old(inner) != [] && old(inner)[0].Chunk?
      ensures r.Ready? && r.data.Some? ==> r.data.value == old(inner)[0].data
      ensures r.NotReady? <==> old(inner) != [] && old(inner)[0].Pending?
      ensures r.Failed? <==> old(inner) != [] && old(inner)[0].Broken?
    {
      if inner == [] {
        return Ready(None);
      }
      var e := inner[0];
      inner := inner[1..];
      match e {
        case Chunk(data) => r := Ready(Some(data));
        case Pending => r := NotReady;
        case Broken => r := Failed;
      }
    }

    /** The overflow as a whole, or else whatever one poll of the transport yields. */
    method Poll() returns (r: Polled)
      modifies this
      ensures r.Ready? && r.data.Some? <==> old(readOverflow).Some? || (old(inner) != [] && old(inner)[0].Chunk?)
      ensures r.Ready? && r.data.Some? ==>
        (Abs(), r.data.value) == PollPipe(old(Abs()), NextChunk(old(inner)))
      ensures r == Ready(None) <==> old(readOverflow).None? && old(inner) == []
      ensures r.NotReady? <==> old(readOverflow).None? && old(inner) != [] && old(inner)[0].Pending?
      ensures r.Failed? <==> old(readOverflow).None? && old(inner) != [] && old(inner)[0].Broken?
      ensures !(r.Ready? && r.data.Some?) ==> Abs() == old(Abs())
      ensures readOverflow.None?
      ensures inner == if old(readOverflow).Some? || old(inner) == [] then old(inner) else old(inner)[1..]
    {
      match readOverflow {
        case Some(buf) =>
          readOverflow := None;
          r := Ready(Some(buf));
        case None =>
          r := PollInner();
      }
    }

    /** Copies the front of `src` into `dst`. */
    method CopyData(src: Bytes, dst: array<Byte>) returns (n: nat, rest: Option<Bytes>)
      modifies dst
      ensures n == Min(|src|, dst.Length) && rest == Rest(src, n)
      ensures dst[..n] == src[..n] && dst[n..] == old(dst[n..])
    {
      n := Min(|src|, dst.Length);
      for i := 0 to n
        invariant dst[..i] == src[..i] && dst[n..] == old(dst[n..])
      {
        dst[i] := src[i];
      }
      rest := Rest(src, n);
    }

    /** Reads from the overflow, or else from what one poll of the transport yields. */
    method Read(dst: array<Byte>) returns (r: ReadResult)
      modifies this, dst
      ensures r.Count? <==> old(readOverflow).Some? || old(inner) == [] || old(inner)[0].Chunk?
      ensures r.WouldBlock? <==> old(readOverflow).None? && old(inner) != [] && old(inner)[0].Pending?
      ensures r.ReadFailed? <==> old(readOverflow).None? && old(inner) != [] && old(inner)[0].Broken?
      ensures inner == if old(readOverflow).Some? || old(inner) == [] then old(inner) else old(inner)[1..]
      ensures r.Count? ==>
        && r.n <= dst.Length && dst[r.n..] == old(dst[r.n..])
        && (Abs(), dst[..r.n]) == ReadPipe(old(Abs()), NextChunk(old(inner)), dst.Length)
      ensures !r.Count? ==> dst[..] == old(dst[..]) && Abs() == old(Abs()) && readOverflow.None?
      // Zero means: no room, the end of the stream, or an empty chunk.
      ensures r == Count(0) && old(Abs()).Valid() ==>
        dst.Length == 0 || (old(readOverflow).None? && (old(inner) == [] || old(inner)[0] == Chunk([])))
    {
      var n;
      if readOverflow.Some? {
        n, readOverflow := CopyData(readOverflow.value, dst);
        return Count(n);
      }
      var res := PollInner();
      match res {
        case NotReady => r := WouldBlock;
        case Failed => r := ReadFailed;
        case Ready(None) =>
          assert dst[..0] == [];
          r := Count(0);
        case Ready(Some(data)) =>
          n, readOverflow := CopyData(data, dst);
          r := Count(n);
      }
    }
  }
}
