/** The control messages of src/protocol.rs and what a peer does with the first message of a stream. */
module Messages {
  import opened Common
  import opened Framing

  /** The first message on every stream; it defines the purpose of the stream. */
  datatype StreamHello =
    | User(peer: PeerId)
    | UserProxy(peer: PeerId)
    | Registry
    | BuildConnectionToPeer(peer: PeerId)
    | ProxyBuildConnectionToPeer(peer: PeerId)

  /** The messages exchanged to build a connection. */
  datatype BuildMessage =
    | InternetAddressInformation(addr: Address)
    | ExchangeAddressInformation(addrs: seq<Address>)
    | ProxyConnection

  /** The messages between a peer and its registry provider. */
  datatype RegistryMessage =
    | Find(peer: PeerId)
    | NotFound(peer: PeerId)
    | Found(peer: PeerId)
    | Ping
    | Pong

  /** The serialisation of messages into frame payloads; the program uses JSON. */
  datatype Codec<!M> = Codec(encode: M -> Bytes, decode: Bytes -> Option<M>)

  ghost predicate Faithful<M(!new)>(c: Codec<M>) {
    forall m :: c.decode(c.encode(m)) == Some(m)
  }

  /** What `IncomingStream` does with a hello (src/incoming_stream.rs). */
  datatype Purpose =
    | PassToContext(peer: PeerId, proxy: bool)          // a user stream, named after `peer`
    | Relay(target: PeerId, hello: StreamHello, building: bool)
    | ServeRegistry
    | BuildRemote(peer: PeerId)

  /** The hello arrived on a connection to `connected`. */
  function PurposeOf(hello: StreamHello, connected: PeerId): Purpose {
    match hello
    case User(peer) => PassToContext(peer, peer != connected)
    case UserProxy(peer) => Relay(peer, User(connected), false)
    case Registry => ServeRegistry
    case BuildConnectionToPeer(peer) => BuildRemote(peer)
    case ProxyBuildConnectionToPeer(peer) => Relay(peer, BuildConnectionToPeer(connected), true)
  }

  /** Which hellos stay at the peer that receives them, and which are relayed, to whom and under which hello. */
  lemma EveryHelloHasItsPurpose(connected: PeerId, hello: StreamHello)
    ensures PurposeOf(hello, connected).ServeRegistry? <==> hello.Registry?
    ensures PurposeOf(hello, connected).PassToContext? <==> hello.User?
    ensures PurposeOf(hello, connected).BuildRemote? <==> hello.BuildConnectionToPeer?
    ensures var purpose := PurposeOf(hello, connected);
      purpose.Relay? <==> hello.UserProxy? || hello.ProxyBuildConnectionToPeer?
    ensures var purpose := PurposeOf(hello, connected);
      purpose.Relay? ==>
        && purpose.target == hello.peer
        && (purpose.building <==> hello.ProxyBuildConnectionToPeer?)
        && purpose.hello == if purpose.building then BuildConnectionToPeer(connected) else User(connected)
  {
  }
}
