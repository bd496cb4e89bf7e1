/**
 Who is at the other end: the identity and the proxy flag of user streams in a whole network of peers
 (src/stream.rs, src/incoming_stream.rs, src/connection.rs).

 Streams are opened from handles: handles of registered connections, and handles that hang on streams
 opened earlier. Each connection knows the true identity of the peer at its other side.
 */
module Identity {
  import opened Common
  import opened Messages
  import opened Streams
  import BuildProtocol
  import BuildSafety
  import SampleSetup
  import UserRelay

  /** A user stream with both its ends, the peers that hold them, and the peer that relays it, if any. */
  datatype UserStream = UserStream(
    opener: PeerId, near: StreamEnd, accepter: PeerId, far: StreamEnd, relay: Option<PeerId>)

  /** `registry[p, k]` is the handle that peer p has registered for peer k. */
  datatype Network = Network(
    conns: seq<(PeerId, PeerId)>, registry: map<(PeerId, PeerId), Handle>, streams: seq<UserStream>)
  {
    predicate Has(side: Side) { side.conn < |conns| }

    /** The peer on this side of the connection. */
    function At(side: Side): PeerId
      requires Has(side)
    {
      if side.first then conns[side.conn].0 else conns[side.conn].1
    }
  }

  const EMPTY := Network([], map[], [])

  function Other(side: Side): (r: Side)
    ensures r.conn == side.conn && r.first != side.first
  {
    side.(first := !side.first)
  }

  /** The handle that `Connection::new` creates on this side. */
  function ConnectionHandle(n: Network, side: Side): Handle
    requires n.Has(side)
  {
    NewHandle(n.At(Other(side)), n.At(side), side)
  }

  /** What the peer behind `side` passes to its user when `hello` arrives from there. */
  function Accepted(n: Network, side: Side, hello: StreamHello): Option<StreamEnd>
    requires n.Has(side)
  {
    var here := Other(side);
    var purpose := PurposeOf(hello, n.At(side));
    if purpose.PassToContext? then Some(NewEnd(purpose.peer, ConnectionHandle(n, here), purpose.proxy)) else None
  }

  /** `NewStreamHandle::new_stream` on `h`, followed through to the accepting peer. */
  function Open(n: Network, h: Handle): Option<UserStream>
    requires n.Has(h.side)
  {
    var hello := NewStreamHello(h);
    var near := OpenedEnd(h, hello);
    var middle := n.At(Other(h.side));
    match PurposeOf(hello, n.At(h.side))
    case PassToContext(_, _) =>
      var far := Accepted(n, h.side, hello);
      if far.None? then None else Some(UserStream(h.local, near, middle, far.value, None))
    case Relay(target, relayed, _) =>
      if (middle, target) !in n.registry || !n.Has(n.registry[(middle, target)].side) then None else
      var onward := n.registry[(middle, target)].side;
      var far := Accepted(n, onward, relayed);
      if far.None? then None else Some(UserStream(h.local, near, n.At(Other(onward)), far.value, Some(middle)))
    case _ => None
  }

  /** The outcome of the connection-building protocol when it falls back to the control stream. */
  function HandedOver(n: Network, h: Handle, target: PeerId): Option<UserStream>
    requires n.Has(h.side)
  {
    var middle := n.At(Other(h.side));
    if (middle, target) !in n.registry || !n.Has(n.registry[(middle, target)].side) then None else
    var onward := n.registry[(middle, target)].side;
    Some(UserStream(h.local, NewEnd(target, h, true), n.At(Other(onward)),
                    NewEnd(n.At(h.side), ConnectionHandle(n, Other(onward)), true), Some(middle)))
  }

  datatype Event =
    | Connect(p: PeerId, q: PeerId)
    | Register(side: Side)
    | Unregister(owner: PeerId, key: PeerId)
    | OpenRegistered(owner: PeerId, key: PeerId)   // a locally found handle
    | OpenConnection(side: Side)                   // a stream on a connection just built
    | OpenNested(stream: nat, near: bool)          // a stream from the handle of a stream
    | HandOver(side: Side, target: PeerId)

  function Add(n: Network, s: Option<UserStream>): Network {
    if s.Some? then n.(streams := n.streams + [s.value]) else n
  }

  function Step(n: Network, e: Event): Network {
    match e
    case Connect(p, q) => n.(conns := n.conns + [(p, q)])
    case Register(side) =>
      if !n.Has(side) then n
      else n.(registry := n.registry[(n.At(side), n.At(Other(side))) := ConnectionHandle(n, side)])
    case Unregister(owner, key) => n.(registry := n.registry - {(owner, key)})
    case OpenRegistered(owner, key) =>
      if (owner, key) !in n.registry || !n.Has(n.registry[(owner, key)].side) then n
      else Add(n, Open(n, n.registry[(owner, key)]))
    case OpenConnection(side) => if !n.Has(side) then n else Add(n, Open(n, ConnectionHandle(n, side)))
    case OpenNested(i, near) =>
      if i >= |n.streams| then n else
      var h := if near then n.streams[i].near.handle else n.streams[i].far.handle;
      if !n.Has(h.side) then n else Add(n, Open(n, h))
    case HandOver(side, target) =>
      if !n.Has(side) then n else Add(n, HandedOver(n, ConnectionHandle(n, side), target))
  }

  function Run(n: Network, events: seq<Event>): Network
    decreases |events|
  {
    if events == [] then n else Run(Step(n, events[0]), events[1..])
  }

  // ---------- The invariant ----------

  /** The handle belongs to `owner`; without the proxy flag it leads straight to the peer it names. */
  predicate HandleOk(n: Network, h: Handle, owner: PeerId) {
    && n.Has(h.side) && h.local == owner == n.At(h.side)
    && (!h.proxy ==> n.At(Other(h.side)) == h.peer)
  }

  /** Every registered handle is a direct handle for the peer under whose name it is registered. */
  predicate RegistryOk(n: Network) {
    forall k :: k in n.registry ==>
      var h := n.registry[k]; HandleOk(n, h, k.0) && h.peer == k.1 && !h.proxy
  }

  /** The end carries the same identity and flag as the handle that hangs on it. */
  predicate EndOk(n: Network, end: StreamEnd, owner: PeerId) {
    HandleOk(n, end.handle, owner) && end.peer == end.handle.peer && end.proxy == end.handle.proxy
  }

  /** Each end names the peer that holds the other end. */
  predicate Symmetric(s: UserStream) { s.near.peer == s.accepter && s.far.peer == s.opener }

  predicate StreamOk(n: Network, s: UserStream) {
    && EndOk(n, s.near, s.opener) && EndOk(n, s.far, s.accepter)
    && Symmetric(s)
    && s.near.proxy == s.relay.Some?
    && (s.relay != Some(s.opener) ==> s.far.proxy == s.near.proxy)
    && (s.relay == Some(s.opener) ==> SelfConnected(n, s.opener))
  }

  predicate SelfConnected(n: Network, p: PeerId) { (p, p) in n.conns }

  predicate Inv(n: Network) {
    RegistryOk(n) && forall i :: 0 <= i < |n.streams| ==> StreamOk(n, n.streams[i])
  }

  /**
   A stream opened from a sound handle is symmetric, and its two ends agree on the proxy flag unless the
   handle is a proxied one on a connection of its owner to itself, so that the owner is its own relay.
   */
  lemma OpenIsSymmetric(n: Network, h: Handle)
    requires RegistryOk(n) && HandleOk(n, h, h.local) && Open(n, h).Some?
    ensures var s := Open(n, h).value;
      StreamOk(n, s) && (s.near.proxy == s.far.proxy <==> !(h.proxy && n.At(Other(h.side)) == h.local))
  {
    var s := Open(n, h).value;
    if h.proxy {
      var middle := n.At(Other(h.side));
      assert n.registry[(middle, h.peer)].peer == h.peer;
      if middle == h.local { assert n.conns[h.side.conn] == (middle, middle); }
    }
  }

  /** Opening fails exactly if the stream is to be relayed to a peer that the relay has not registered. */
  lemma OpensIff(n: Network, h: Handle, target: PeerId)
    requires RegistryOk(n) && HandleOk(n, h, h.local)
    ensures Open(n, h).None? <==> h.proxy && (n.At(Other(h.side)), h.peer) !in n.registry
    ensures HandedOver(n, h, target).None? <==> (n.At(Other(h.side)), target) !in n.registry
  {
  }

  lemma HandedOverIsSymmetric(n: Network, h: Handle, target: PeerId)
    requires RegistryOk(n) && HandleOk(n, h, h.local) && HandedOver(n, h, target).Some?
    ensures StreamOk(n, HandedOver(n, h, target).value)
  {
    var middle := n.At(Other(h.side));
    assert n.registry[(middle, target)].peer == target;
    if middle == h.local { assert n.conns[h.side.conn] == (middle, middle); }
  }

  /** The setup of the protocol that builds a connection from the owner of `h` to `target` in this network. */
  predicate SetsUp(n: Network, h: Handle, target: PeerId, c: BuildProtocol.Setup) {
    var middle := if n.Has(h.side) then n.At(Other(h.side)) else h.local;
    && n.Has(h.side) && (middle, target) in n.registry
    && c.initiator == h.local && c.relay == middle && c.remote == target
    && c.near == h.side && c.far == Other(n.registry[(middle, target)].side)
  }

  /**
   The stream above is what the three-party protocol arrives at: whenever a run of it ends with the handover,
   the two ends of the control stream are the ends of this stream.
   */
  lemma HandedOverIsOutcome(n: Network, h: Handle, target: PeerId, c: BuildProtocol.Setup, events: seq<BuildProtocol.Event>)
    requires RegistryOk(n) && HandleOk(n, h, h.local) && SetsUp(n, h, target, c) && c.Valid()
    requires BuildProtocol.Run(c, BuildProtocol.START, events).remote.Passed?
    ensures var s := BuildProtocol.Run(c, BuildProtocol.START, events);
      && s.init.ConnectionBuilt?
      && HandedOver(n, h, target) == Some(UserStream(c.initiator, s.init.end, c.remote, s.remote.end, Some(c.relay)))
  {
    BuildSafety.HandoverAgreement(c, events);
    hide BuildProtocol.Run;
    assert n.registry[(c.relay, target)].peer == target;
  }

  /** And such a run exists for every pair of peers that share a relay. */
  lemma HandedOverIsReached(n: Network, h: Handle, target: PeerId)
    returns (c: BuildProtocol.Setup, events: seq<BuildProtocol.Event>)
    requires RegistryOk(n) && HandleOk(n, h, h.local) && HandedOver(n, h, target).Some?
    ensures SetsUp(n, h, target, c) && c.Valid()
    ensures BuildProtocol.Run(c, BuildProtocol.START, events).remote.Passed?
  {
    var middle := n.At(Other(h.side));
    c, events := SampleSetup.HandoverHappens(
      h.local, middle, target, h.side, Other(n.registry[(middle, target)].side), 0, 0);
  }

  /**
   A stream that is opened through a relay is what the relaying of user streams arrives at: whenever a run of it
   ends with the stream at the target, the target's end is the far end of this stream.
   */
  lemma RelayedOpenIsOutcome(n: Network, h: Handle, c: UserRelay.Setup, events: seq<UserRelay.Event>)
    requires RegistryOk(n) && HandleOk(n, h, h.local) && h.proxy && (n.At(Other(h.side)), h.peer) in n.registry
    requires c.Valid() && c.opener == h.local && c.relay == n.At(Other(h.side)) && c.target == h.peer
    requires c.far == Other(n.registry[(c.relay, c.target)].side)
    requires UserRelay.Run(c, UserRelay.Start(c), events).remote.Passed?
    ensures var s := UserRelay.Run(c, UserRelay.Start(c), events);
      Open(n, h) == Some(UserStream(c.opener, StreamEnd(c.target, true, h), c.target, s.remote.end, Some(c.relay)))
  {
    UserRelay.UserBytesPassTheRelay(c, events);
    hide UserRelay.Run;
    assert n.registry[(c.relay, h.peer)].peer == h.peer;
  }

  lemma AddKeeps(n: Network, s: Option<UserStream>)
    requires Inv(n) && (s.Some? ==> StreamOk(n, s.value))
    ensures Inv(Add(n, s))
  {
    var n' := Add(n, s);
    assert RegistryOk(n');
    forall i | 0 <= i < |n'.streams|
      ensures StreamOk(n', n'.streams[i])
    {
      assert StreamOk(n, n'.streams[i]);
    }
  }

  lemma ConnectKeeps(n: Network, p: PeerId, q: PeerId)
    requires Inv(n)
    ensures Inv(Step(n, Connect(p, q)))
  {
    var n' := Step(n, Connect(p, q));
    forall i | 0 <= i < |n'.streams|
      ensures StreamOk(n', n'.streams[i])
    {
      assert StreamOk(n, n.streams[i]);
    }
  }

  lemma StepKeeps(n: Network, e: Event)
    requires Inv(n)
    ensures Inv(Step(n, e))
  {
    match e
    case Connect(p, q) => ConnectKeeps(n, p, q);
    case Register(side) =>
      if n.Has(side) { forall i | 0 <= i < |n.streams| ensures StreamOk(Step(n, e), n.streams[i]) {} }
    case Unregister(_, _) => forall i | 0 <= i < |n.streams| ensures StreamOk(Step(n, e), n.streams[i]) {}
    case OpenRegistered(owner, key) =>
      if (owner, key) in n.registry { OpenKeeps(n, n.registry[(owner, key)]); }
    case OpenConnection(side) => if n.Has(side) { OpenKeeps(n, ConnectionHandle(n, side)); }
    case OpenNested(i, near) =>
      if i < |n.streams| {
        assert StreamOk(n, n.streams[i]);
        OpenKeeps(n, if near then n.streams[i].near.handle else n.streams[i].far.handle);
      }
    case HandOver(side, target) =>
      if n.Has(side) {
        var h := ConnectionHandle(n, side);
        if HandedOver(n, h, target).Some? { HandedOverIsSymmetric(n, h, target); }
        AddKeeps(n, HandedOver(n, h, target));
      }
  }

  lemma OpenKeeps(n: Network, h: Handle)
    requires Inv(n) && HandleOk(n, h, h.local)
    ensures Inv(Add(n, Open(n, h)))
  {
    if Open(n, h).Some? { OpenIsSymmetric(n, h); }
    AddKeeps(n, Open(n, h));
  }

  lemma {:induction false} RunKeeps(n: Network, events: seq<Event>)
    requires Inv(n)
    ensures Inv(Run(n, events))
    decreases |events|
  {
    if events != [] {
      StepKeeps(n, events[0]);
      RunKeeps(Step(n, events[0]), events[1..]);
    }
  }

  /**
   In every network, every user stream reached by any chain of openings, direct or relayed, names at each
   end the peer at the other end; and the ends agree on the proxy flag unless a peer that is connected to
   itself was its own relay.
   */
  lemma EveryStreamIsSymmetric(events: seq<Event>, i: nat)
    requires i < |Run(EMPTY, events).streams|
    ensures var n := Run(EMPTY, events);
      var s := n.streams[i];
      && Symmetric(s)
      && (!SelfConnected(n, s.opener) ==> s.near.proxy == s.far.proxy == s.relay.Some?)
  {
    RunKeeps(EMPTY, events);
    assert StreamOk(Run(EMPTY, events), Run(EMPTY, events).streams[i]);
  }

  /** The exception is real: peer 1 relays to peer 2 through a connection to itself. */
  lemma SelfRelayDisagrees() returns (events: seq<Event>)
    ensures var n := Run(EMPTY, events);
      |n.streams| == 2 && Symmetric(n.streams[1]) && n.streams[1].near.proxy && !n.streams[1].far.proxy
  {
    events := [Connect(1, 1), Connect(1, 2), Register(Side(1, true)), HandOver(Side(0, true), 2), OpenNested(0, true)];
    var n1 := Step(EMPTY, events[0]);
    var n2 := Step(n1, events[1]);
    assert n2.conns == [(1, 1), (1, 2)];
    var n3 := Step(n2, events[2]);
    var n4 := Step(n3, events[3]);
    assert n4.streams[0].near.handle == Handle(2, 1, Side(0, true), true);
    var n5 := Step(n4, events[4]);
    assert events[1..][1..][1..][1..][1..] == [];
    assert Run(EMPTY, events) == n5;
  }

  /** The stream that an opening adds, in every network: it connects the owner of the handle with its peer. */
  predicate Connects(n: Network, n': Network, opener: PeerId, accepter: PeerId) {
    && |n'.streams| == |n.streams| + 1 && n'.streams[..|n.streams|] == n.streams
    && var s := n'.streams[|n.streams|];
       && s.opener == opener && s.accepter == accepter && s.relay.None?
       && s.near.peer == accepter && s.far.peer == opener && !s.near.proxy && !s.far.proxy
  }

  /** In every network, opening a stream from a registered handle or on a connection connects the two peers. */
  lemma DirectOpeningsConnect(events: seq<Event>, key: (PeerId, PeerId), side: Side)
    ensures var n := Run(EMPTY, events);
      && (key in n.registry ==> Connects(n, Step(n, OpenRegistered(key.0, key.1)), key.0, key.1))
      && (n.Has(side) ==> Connects(n, Step(n, OpenConnection(side)), n.At(side), n.At(Other(side))))
  {
    RunKeeps(EMPTY, events);
    var n := Run(EMPTY, events);
    hide Run;
    if key in n.registry {
      OpensIff(n, n.registry[key], 0);
      OpenIsSymmetric(n, n.registry[key]);
    }
    if n.Has(side) {
      var h := ConnectionHandle(n, side);
      OpensIff(n, h, 0);
      OpenIsSymmetric(n, h);
    }
  }
}
