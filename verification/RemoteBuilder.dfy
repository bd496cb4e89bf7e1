/** The remote's builder as the object that the source updates in place: `BuildConnectionToPeerRemote::poll`. */
module RemoteBuilder {
  import opened Common
  import opened Messages
  import B = BuildProtocol

  /** `incoming` are the decoded messages ready to be polled; `passed` tells that the stream was taken. */
  datatype Builder = Builder(
    incoming: seq<BuildMessage>, internetAddr: Option<Address>,
    poked: seq<Address>, sent: seq<BuildMessage>, passed: bool)

  datatype Polled = NotReady | Ready | Crashed

  predicate Continues(b: Builder, interfaces: seq<Address>) {
    b.incoming != [] && B.React(b.internetAddr, b.poked, interfaces, b.incoming[0]).Continue?
  }

  /** The builder after its first message. */
  function Continued(b: Builder, interfaces: seq<Address>): Builder
    requires Continues(b, interfaces)
  {
    var reaction := B.React(b.internetAddr, b.poked, interfaces, b.incoming[0]);
    b.(incoming := b.incoming[1..], internetAddr := reaction.internetAddr, poked := reaction.poked,
       sent := if reaction.reply.Some? then b.sent + [reaction.reply.value] else b.sent)
  }

  /** Messages handled one after the other until the stream is passed on, ends, or has nothing ready. */
  function PollAll(b: Builder, ended: bool, interfaces: seq<Address>): (Builder, Polled)
    decreases |b.incoming|
  {
    if b.incoming == [] then (b, if ended then Ready else NotReady)
    else
      var b1 := b.(incoming := b.incoming[1..]);
      match B.React(b.internetAddr, b.poked, interfaces, b.incoming[0])
      case Panic => (b1, Crashed)
      case HandOver => (b1.(passed := true), Ready)
      case Continue(_, _, _) => PollAll(Continued(b, interfaces), ended, interfaces)
  }

  /** Position of the first `ProxyConnection`, or the number of messages if there is none. */
  function FirstProxy(msgs: seq<BuildMessage>): (k: nat)
    ensures k <= |msgs| && (k < |msgs| ==> msgs[k].ProxyConnection?)
    ensures forall i :: 0 <= i < k ==> !msgs[i].ProxyConnection?
  {
    if msgs == [] || msgs[0].ProxyConnection? then 0 else 1 + FirstProxy(msgs[1..])
  }

  /** The `expect` fails exactly if the very first message already asks for the addresses. */
  lemma {:induction false} CrashesIffExchangeComesFirst(b: Builder, ended: bool, interfaces: seq<Address>)
    ensures PollAll(b, ended, interfaces).1.Crashed? <==>
      b.internetAddr.None? && b.incoming != [] && b.incoming[0].ExchangeAddressInformation?
    decreases |b.incoming|
  {
    if Continues(b, interfaces) { CrashesIffExchangeComesFirst(Continued(b, interfaces), ended, interfaces); }
  }

  /** Whether the stream was passed on, and what is left of the messages. */
  predicate PassedRight(b: Builder, b': Builder, r: Polled, ended: bool) {
    var k := FirstProxy(b.incoming);
    && (b'.passed <==> k < |b.incoming|)
    && b'.incoming == (if k < |b.incoming| then b.incoming[k + 1..] else [])
    && (r.Ready? <==> b'.passed || ended)
  }

  lemma PassesAtOnce(b: Builder, ended: bool, interfaces: seq<Address>)
    requires FirstProxy(b.incoming) == 0 && !b.passed
    ensures var (b', r) := PollAll(b, ended, interfaces); PassedRight(b, b', r, ended)
  {
  }

  lemma PassesOneLater(b: Builder, b1: Builder, b': Builder, r: Polled, ended: bool)
    requires FirstProxy(b.incoming) == 1 + FirstProxy(b1.incoming) && b1.incoming == b.incoming[1..]
    requires PassedRight(b1, b', r, ended)
    ensures PassedRight(b, b', r, ended)
  {
    var k := FirstProxy(b1.incoming);
    hide FirstProxy;
    if k < |b1.incoming| { assert b1.incoming[k + 1..] == b.incoming[k + 2..]; }
  }

  /**
   Without a crash the stream is passed on exactly if a `ProxyConnection` is ready, and then nothing behind
   that message has been consumed. Otherwise all messages are consumed.
   */
  lemma {:induction false} PassesAtFirstProxyConnection(b: Builder, ended: bool, interfaces: seq<Address>)
    requires !PollAll(b, ended, interfaces).1.Crashed? && !b.passed
    ensures var (b', r) := PollAll(b, ended, interfaces);
      var k := FirstProxy(b.incoming);
      && (b'.passed <==> k < |b.incoming|)
      && b'.incoming == (if k < |b.incoming| then b.incoming[k + 1..] else [])
      && (r.Ready? <==> b'.passed || ended)
    decreases |b.incoming|
  {
    hide PollAll, FirstProxy, Continues;
    if FirstProxy(b.incoming) == 0 {
      PassesAtOnce(b, ended, interfaces);
    } else {
      OneRound(b, ended, interfaces);
      var b1 := Continued(b, interfaces);
      PassesAtFirstProxyConnection(b1, ended, interfaces);
      var (b', r) := PollAll(b1, ended, interfaces);
      PassesOneLater(b, b1, b', r, ended);
    }
  }

  // ---------- What a poll leaves behind ----------

  /** All addresses of all lists received, in order. */
  function Received(msgs: seq<BuildMessage>): seq<Address> {
    if msgs == [] then [] else
    var last := msgs[|msgs| - 1];
    Received(msgs[..|msgs| - 1]) + (if last.ExchangeAddressInformation? then last.addrs else [])
  }

  /** The internet address received last, or the one known before. */
  function LastAddress(before: Option<Address>, msgs: seq<BuildMessage>): Option<Address> {
    if msgs == [] then before else
    var last := msgs[|msgs| - 1];
    if last.InternetAddressInformation? then Some(last.addr) else LastAddress(before, msgs[..|msgs| - 1])
  }

  /** One list of addresses for each list received, ending in the internet address that was known then. */
  function Returned(before: Option<Address>, msgs: seq<BuildMessage>, interfaces: seq<Address>): seq<BuildMessage> {
    if msgs == [] then [] else
    var front := msgs[..|msgs| - 1];
    var known := LastAddress(before, front);
    Returned(before, front, interfaces) +
      (if msgs[|msgs| - 1].ExchangeAddressInformation? && known.Some?
       then [ExchangeAddressInformation(interfaces + [known.value])] else [])
  }

  lemma OneMoreMessage(before: Option<Address>, msgs: seq<BuildMessage>, m: BuildMessage, interfaces: seq<Address>)
    ensures Received(msgs + [m]) == Received(msgs) + (if m.ExchangeAddressInformation? then m.addrs else [])
    ensures LastAddress(before, msgs + [m]) ==
      if m.InternetAddressInformation? then Some(m.addr) else LastAddress(before, msgs)
    ensures var known := LastAddress(before, msgs);
      Returned(before, msgs + [m], interfaces) == Returned(before, msgs, interfaces) +
        (if m.ExchangeAddressInformation? && known.Some?
         then [ExchangeAddressInformation(interfaces + [known.value])] else [])
  {
    assert (msgs + [m])[..|msgs|] == msgs;
  }

  /** The builder `b` has come from `start` by handling the messages `done`. */
  predicate Handled(start: Builder, done: seq<BuildMessage>, b: Builder, interfaces: seq<Address>) {
    && b.poked == start.poked + Received(done)
    && b.internetAddr == LastAddress(start.internetAddr, done)
    && b.sent == start.sent + Returned(start.internetAddr, done, interfaces)
  }

  lemma HandledOneMore(start: Builder, done: seq<BuildMessage>, b: Builder, interfaces: seq<Address>)
    requires Handled(start, done, b, interfaces) && Continues(b, interfaces)
    ensures Handled(start, done + [b.incoming[0]], Continued(b, interfaces), interfaces)
  {
    var m := b.incoming[0];
    OneMoreMessage(start.internetAddr, done, m, interfaces);
    hide Received, LastAddress, Returned;
    if m.ExchangeAddressInformation? {
      Assoc(start.poked, Received(done), m.addrs);
      Assoc(start.sent, Returned(start.internetAddr, done, interfaces),
        [ExchangeAddressInformation(interfaces + [b.internetAddr.value])]);
    }
  }

  lemma {:induction false} PollAllFrom(
    start: Builder, done: seq<BuildMessage>, b: Builder, ended: bool, interfaces: seq<Address>)
    requires Handled(start, done, b, interfaces) && !PollAll(b, ended, interfaces).1.Crashed?
    ensures var k := FirstProxy(b.incoming);
      Handled(start, done + b.incoming[..k], PollAll(b, ended, interfaces).0, interfaces)
    decreases |b.incoming|
  {
    hide Handled, PollAll, FirstProxy, Continues, Continued;
    var k := FirstProxy(b.incoming);
    if k == 0 {
      assert done + b.incoming[..k] == done;
      StopsAtOnce(start, done, b, ended, interfaces);
    } else {
      OneRound(b, ended, interfaces);
      SplitFirst(done, b.incoming, k);
      HandledOneMore(start, done, b, interfaces);
      PollAllFrom(start, done + [b.incoming[0]], Continued(b, interfaces), ended, interfaces);
    }
  }

  lemma StopsAtOnce(start: Builder, done: seq<BuildMessage>, b: Builder, ended: bool, interfaces: seq<Address>)
    requires FirstProxy(b.incoming) == 0 && Handled(start, done, b, interfaces)
    ensures Handled(start, done, PollAll(b, ended, interfaces).0, interfaces)
  {
    hide Received, LastAddress, Returned;
  }

  /** Without a crash, a first message that does not hand over is one round of the loop. */
  lemma OneRound(b: Builder, ended: bool, interfaces: seq<Address>)
    requires FirstProxy(b.incoming) > 0 && !PollAll(b, ended, interfaces).1.Crashed?
    ensures Continues(b, interfaces) && Continued(b, interfaces).incoming == b.incoming[1..]
    ensures PollAll(b, ended, interfaces) == PollAll(Continued(b, interfaces), ended, interfaces)
    ensures FirstProxy(b.incoming) == 1 + FirstProxy(b.incoming[1..])
  {
  }

  lemma SplitFirst(done: seq<BuildMessage>, msgs: seq<BuildMessage>, k: nat)
    requires 0 < k <= |msgs|
    ensures (done + [msgs[0]]) + msgs[1..][..k - 1] == done + msgs[..k]
  {
  }

  /**
   Without a crash, every address of every list ahead of the first `ProxyConnection` is poked, in order; each
   such list is answered by the own addresses and the internet address received last before it; and the
   internet address received last stays.
   */
  lemma PollLeavesBehind(b: Builder, ended: bool, interfaces: seq<Address>)
    requires !PollAll(b, ended, interfaces).1.Crashed?
    ensures var b', msgs := PollAll(b, ended, interfaces).0, b.incoming[..FirstProxy(b.incoming)];
      && b'.poked == b.poked + Received(msgs)
      && b'.sent == b.sent + Returned(b.internetAddr, msgs, interfaces)
      && b'.internetAddr == LastAddress(b.internetAddr, msgs)
  {
    PollAllFrom(b, [], b, ended, interfaces);
    assert [] + b.incoming[..FirstProxy(b.incoming)] == b.incoming[..FirstProxy(b.incoming)];
  }

  class BuildConnectionToPeerRemote {
    /** The messages that the stream has ready; absent once the stream was taken. */
    var stream: Option<seq<BuildMessage>>
    var internetAddr: Option<Address>
    /** Everything sent on the stream, every address poked, and what was left on a stream passed on. */
    var sent: seq<BuildMessage>
    var poked: seq<Address>
    var passedOn: Option<seq<BuildMessage>>

    predicate Valid()
      reads this
    {
      stream.Some? <==> passedOn.None?
    }

    function Abs(): Builder
      reads this
      requires Valid()
    {
      Builder(if stream.Some? then stream.value else passedOn.value, internetAddr, poked, sent, passedOn.Some?)
    }

    constructor (ready: seq<BuildMessage>)
      ensures Valid() && Abs() == Builder(ready, None, [], [], false)
    {
      stream, internetAddr, sent, poked, passedOn := Some(ready), None, [], [], None;
    }

    /** `interfaces` are the local addresses, `ended` tells whether the stream ends behind its messages. */
    method Poll(interfaces: seq<Address>, ended: bool) returns (r: Polled)
      requires Valid() && stream.Some?
      modifies this
      ensures Valid() && (Abs(), r) == PollAll(old(Abs()), ended, interfaces)
      ensures var msgs := old(stream).value[..FirstProxy(old(stream).value)];
        !r.Crashed? ==>
          && poked == old(poked) + Received(msgs) && internetAddr == LastAddress(old(internetAddr), msgs)
          && sent == old(sent) + Returned(old(internetAddr), msgs, interfaces)
    {
      ghost var start := Abs();
      if !PollAll(start, ended, interfaces).1.Crashed? { PollLeavesBehind(start, ended, interfaces); }
      while true
        invariant Valid() && stream.Some?
        invariant PollAll(Abs(), ended, interfaces) == PollAll(old(Abs()), ended, interfaces)
        decreases |stream.value|
      {
        if stream.value == [] {
          return if ended then Ready else NotReady;
        }
        var msg := stream.value[0];
        stream := Some(stream.value[1..]);
        match msg {
          case InternetAddressInformation(addr) =>
            internetAddr := Some(addr);
          case ExchangeAddressInformation(remoteAddresses) =>
            if internetAddr.None? {
              return Crashed;
            }
            sent := sent + [ExchangeAddressInformation(interfaces + [internetAddr.value])];
            poked := poked + remoteAddresses;
          case ProxyConnection =>
            passedOn, stream := stream, None;
            return Ready;
        }
      }
    }
  }
}
