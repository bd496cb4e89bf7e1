/**
 Setups of the connection-building protocol exist: for all peers, addresses and interface lists there are
 faithful codecs under which every message of a run fits into a frame. What is proved about all valid setups
 is therefore proved about something.

 The codecs here are not JSON. They write numbers in unary and give the few messages of one setup a short
 name, so that the numbers may be as large as they like.
 */
module SampleSetup {
  import opened Common
  import opened Framing
  import opened Messages
  import opened Streams
  import opened BuildProtocol
  import opened BuildSafety
  import opened BuildProgress
  import U = UserRelay

  // ---------- Numbers ----------

  function Unary(n: nat): Bytes { if n == 0 then [1] else [0] + Unary(n - 1) }

  /** The number at the front and what follows it. */
  function ReadUnary(s: Bytes): (r: Option<(nat, Bytes)>)
    ensures r.Some? ==> |r.value.1| < |s|
  {
    if s == [] then None
    else if s[0] == 1 then Some((0, s[1..]))
    else
      var r := ReadUnary(s[1..]);
      if r.None? then None else Some((r.value.0 + 1, r.value.1))
  }

  lemma {:induction false} UnaryRoundTrip(n: nat, rest: Bytes)
    ensures ReadUnary(Unary(n) + rest) == Some((n, rest))
  {
    var s := Unary(n) + rest;
    if n == 0 {
      assert s[1..] == rest;
    } else {
      UnaryRoundTrip(n - 1, rest);
      assert s[1..] == Unary(n - 1) + rest;
    }
  }

  function UnaryAll(ns: seq<nat>): Bytes { if ns == [] then [] else Unary(ns[0]) + UnaryAll(ns[1..]) }

  function ReadAll(s: Bytes): Option<seq<nat>>
    decreases |s|
  {
    if s == [] then Some([]) else
    var first := ReadUnary(s);
    if first.None? then None else
    var rest := ReadAll(first.value.1);
    if rest.None? then None else Some([first.value.0] + rest.value)
  }

  lemma {:induction false} AllRoundTrip(ns: seq<nat>)
    ensures ReadAll(UnaryAll(ns)) == Some(ns)
  {
    if ns != [] {
      UnaryRoundTrip(ns[0], UnaryAll(ns[1..]));
      AllRoundTrip(ns[1..]);
      assert [ns[0]] + ns[1..] == ns;
    }
  }

  // ---------- Messages ----------

  function EncodeHello(h: StreamHello): Bytes {
    match h
    case User(peer) => [0] + Unary(peer)
    case UserProxy(peer) => [1] + Unary(peer)
    case Registry => [2] + Unary(0)
    case BuildConnectionToPeer(peer) => [3] + Unary(peer)
    case ProxyBuildConnectionToPeer(peer) => [4] + Unary(peer)
  }

  function DecodeHello(s: Bytes): Option<StreamHello> {
    if s == [] then None else
    var r := ReadUnary(s[1..]);
    if r.None? then None else
    var peer := r.value.0;
    match s[0]
    case 0 => Some(User(peer))
    case 1 => Some(UserProxy(peer))
    case 2 => Some(Registry)
    case 3 => Some(BuildConnectionToPeer(peer))
    case 4 => Some(ProxyBuildConnectionToPeer(peer))
    case _ => None
  }

  lemma HelloRoundTrip(h: StreamHello)
    ensures DecodeHello(EncodeHello(h)) == Some(h)
  {
    var n := if h.Registry? then 0 else h.peer;
    UnaryRoundTrip(n, []);
    assert Unary(n) + [] == Unary(n) == EncodeHello(h)[1..];
  }

  function EncodeBuild(m: BuildMessage): Bytes {
    match m
    case InternetAddressInformation(addr) => [0] + UnaryAll([addr])
    case ExchangeAddressInformation(addrs) => [1] + UnaryAll(addrs)
    case ProxyConnection => [2]
  }

  function DecodeBuild(s: Bytes): Option<BuildMessage> {
    if s == [] then None else
    var r := ReadAll(s[1..]);
    if r.None? then None else
    match s[0]
    case 0 => if |r.value| == 1 then Some(InternetAddressInformation(r.value[0])) else None
    case 1 => Some(ExchangeAddressInformation(r.value))
    case 2 => Some(ProxyConnection)
    case _ => None
  }

  lemma BuildRoundTrip(m: BuildMessage)
    ensures DecodeBuild(EncodeBuild(m)) == Some(m)
  {
    var ns := match m {
      case InternetAddressInformation(addr) => [addr]
      case ExchangeAddressInformation(addrs) => addrs
      case ProxyConnection => []
    };
    AllRoundTrip(ns);
    assert EncodeBuild(m)[1..] == UnaryAll(ns);
  }

  // ---------- Short names ----------

  function IndexOf<M(==)>(m: M, short: seq<M>): (i: nat)
    requires m in short
    ensures i < |short| && short[i] == m
  {
    if short[0] == m then 0 else IndexOf(m, short[1..]) + 1
  }

  function EncodeShort<M(==)>(raw: Codec<M>, short: seq<M>, m: M): Bytes {
    if m in short then [0] + Unary(IndexOf(m, short)) else [1] + raw.encode(m)
  }

  function DecodeShort<M>(raw: Codec<M>, short: seq<M>, s: Bytes): Option<M> {
    if s == [] then None
    else if s[0] == 1 then raw.decode(s[1..])
    else
      var r := ReadUnary(s[1..]);
      if r.Some? && r.value.0 < |short| then Some(short[r.value.0]) else None
  }

  /** The codec that calls the messages in `short` by their number. */
  function Abbreviating<M(==)>(raw: Codec<M>, short: seq<M>): Codec<M> {
    Codec((m: M) => EncodeShort(raw, short, m), (s: Bytes) => DecodeShort(raw, short, s))
  }

  lemma {:induction false} UnaryLength(n: nat)
    ensures |Unary(n)| == n + 1
  {
    if n > 0 { UnaryLength(n - 1); }
  }

  lemma AbbreviatingIsFaithful<M(!new)>(raw: Codec<M>, short: seq<M>)
    requires Faithful(raw) && |short| + 1 <= MAX_FRAME_LENGTH
    ensures Faithful(Abbreviating(raw, short))
    ensures forall m :: m in short ==> |Abbreviating(raw, short).encode(m)| <= MAX_FRAME_LENGTH
  {
    var c := Abbreviating(raw, short);
    forall m: M
      ensures c.decode(c.encode(m)) == Some(m)
      ensures m in short ==> |c.encode(m)| <= MAX_FRAME_LENGTH
    {
      var s := EncodeShort(raw, short, m);
      if m in short {
        var i := IndexOf(m, short);
        UnaryLength(i);
        UnaryRoundTrip(i, []);
        assert s[1..] == Unary(i) == Unary(i) + [];
      } else {
        assert s[1..] == raw.encode(m);
      }
    }
  }

  // ---------- The setup ----------

  lemma HelloCodec(short: seq<StreamHello>) returns (codec: Codec<StreamHello>)
    requires |short| <= 5
    ensures Faithful(codec)
    ensures forall h :: h in short ==> |codec.encode(h)| <= MAX_FRAME_LENGTH
  {
    hide EncodeHello, DecodeHello, EncodeShort, DecodeShort;
    forall h ensures DecodeHello(EncodeHello(h)) == Some(h) { HelloRoundTrip(h); }
    var raw := Codec(EncodeHello, DecodeHello);
    AbbreviatingIsFaithful(raw, short);
    codec := Abbreviating(raw, short);
  }

  lemma BuildCodec(short: seq<BuildMessage>) returns (codec: Codec<BuildMessage>)
    requires |short| <= 5
    ensures Faithful(codec)
    ensures forall m :: m in short ==> |codec.encode(m)| <= MAX_FRAME_LENGTH
  {
    hide EncodeBuild, DecodeBuild, EncodeShort, DecodeShort;
    forall m ensures DecodeBuild(EncodeBuild(m)) == Some(m) { BuildRoundTrip(m); }
    var raw := Codec(EncodeBuild, DecodeBuild);
    AbbreviatingIsFaithful(raw, short);
    codec := Abbreviating(raw, short);
  }

  /**
   A valid setup for any three peers and any addresses, in which the given lists of interface addresses,
   too, fit into a frame.
   */
  lemma ValidSetupExists(
    initiator: PeerId, relay: PeerId, remote: PeerId, near: Side, far: Side, direct: Side,
    seenInitiator: Address, seenRemote: Address, initInterfaces: seq<Address>, remoteInterfaces: seq<Address>)
    returns (c: Setup)
    ensures c.Valid() && c.initiator == initiator && c.relay == relay && c.remote == remote
    ensures c.near == near && c.far == far && c.direct == direct
    ensures c.seenInitiator == seenInitiator && c.seenRemote == seenRemote
    ensures Fits(c, initInterfaces, seenInitiator) && Fits(c, remoteInterfaces, seenRemote)
  {
    var i, r, proxy := InternetAddressInformation(seenInitiator), InternetAddressInformation(seenRemote), ProxyConnection;
    var x := ExchangeAddressInformation(initInterfaces + [seenInitiator]);
    var y := ExchangeAddressInformation(remoteInterfaces + [seenRemote]);
    var p, q := ProxyBuildConnectionToPeer(remote), StreamHello.BuildConnectionToPeer(initiator);
    var hello := HelloCodec([p, q]);
    var build := BuildCodec([i, r, proxy, x, y]);
    hide Faithful;
    assert p in [p, q] && q in [p, q];
    assert i in [i, r, proxy, x, y] && r in [i, r, proxy, x, y] && proxy in [i, r, proxy, x, y];
    assert x in [i, r, proxy, x, y] && y in [i, r, proxy, x, y];
    c := Setup(initiator, relay, remote, near, far, direct, seenInitiator, seenRemote, hello, build);
  }

  /** For any peers, connections and addresses there is a run that ends with the control stream handed over. */
  lemma HandoverHappens(
    initiator: PeerId, relay: PeerId, remote: PeerId, near: Side, far: Side, seenInitiator: Address, seenRemote: Address)
    returns (c: Setup, events: seq<Event>)
    ensures c.Valid() && c.initiator == initiator && c.relay == relay && c.remote == remote && c.near == near && c.far == far
    ensures BuildProtocol.Run(c, START, events).remote.Passed?
  {
    c := ValidSetupExists(initiator, relay, remote, near, far, near, seenInitiator, seenRemote, [], []);
    events := HandoverIsReachable(c, [], []);
  }

  /** And for any peers there is a run in which the opener's bytes, written right behind the hello, arrive. */
  lemma RelayedStreamHappens(opener: PeerId, relay: PeerId, target: PeerId, far: Side, data: Bytes)
    returns (c: U.Setup, events: seq<U.Event>)
    ensures c.Valid() && c.opener == opener && c.relay == relay && c.target == target && c.far == far
    ensures var s := U.Run(c, U.Start(c), events); s.remote.Passed? && s.out.delivered == data
  {
    var p, q := UserProxy(target), StreamHello.User(opener);
    var hello := HelloCodec([p, q]);
    assert p in [p, q] && q in [p, q];
    c := U.Setup(opener, relay, target, far, hello);
    var write := [U.OpenerWrites(data)];
    U.RunTwo(c, U.Start(c), U.OpenerWrites(data), U.OpenerWrites(data));
    assert [] + data == data;
    var s := U.Run(c, U.Start(c), write);
    assert U.Hopeful(s) && s.out.user == data;
    var more := U.DeliveryStaysPossible(c, write);
    events := write + more;
  }

  /** A run in which peer `remote` was asked for and the result is a direct stream to another peer. */
  lemma WrongPeerHappens(initiator: PeerId, relay: PeerId, remote: PeerId, other: PeerId)
    returns (c: Setup, events: seq<Event>)
    requires other != remote
    ensures c.Valid() && c.initiator == initiator && c.remote == remote
    ensures var s := BuildProtocol.Run(c, START, events);
      s.init.ConnectionBuilt? && !s.init.end.proxy && s.init.end.peer == other != c.remote
  {
    c := ValidSetupExists(initiator, relay, remote, Side(0, true), Side(1, false), Side(2, true), 0, 0, [], []);
    events := AnyPeerCanBeTheResult(c, other, [], []);
  }
}
