/** Handles that create streams, and the identity that each end of a stream carries (src/stream.rs). */
module Streams {
  import opened Common
  import opened Messages

  /** One side of a connection. `first` tells the two sides apart. */
  datatype Side = Side(conn: nat, first: bool)

  /** Creates streams on `side`; with `proxy` set the connected peer relays them to `peer`. */
  datatype Handle = Handle(peer: PeerId, local: PeerId, side: Side, proxy: bool)

  /** One end of a user stream. */
  datatype StreamEnd = StreamEnd(peer: PeerId, proxy: bool, handle: Handle)

  function NewHandle(peer: PeerId, local: PeerId, side: Side): Handle { Handle(peer, local, side, false) }

  function SetProxyStream(h: Handle, proxy: bool, peer: PeerId): Handle { h.(proxy := proxy, peer := peer) }

  /** `Stream::new`: the stream's own handle is set to reach the same peer the same way. */
  function NewEnd(peer: PeerId, h: Handle, proxy: bool): StreamEnd {
    StreamEnd(peer, proxy, SetProxyStream(h, proxy, peer))
  }

  /** The hello that `NewStreamHandle::new_stream` sends. */
  function NewStreamHello(h: Handle): StreamHello {
    if h.proxy then UserProxy(h.peer) else User(h.local)
  }

  /** The end that `NewStreamFuture` yields on the side that opened the stream with `hello`. */
  function OpenedEnd(h: Handle, hello: StreamHello): StreamEnd {
    match hello
    case UserProxy(peer) => NewEnd(peer, h, true)
    case ProxyBuildConnectionToPeer(peer) => NewEnd(peer, h, true)
    case _ => NewEnd(h.peer, h, false)
  }

  /**
   A stream opened with a hello for another peer leads to that peer through the connected one; any other
   stream leads to the connected peer itself. New streams from its handle go the same way.
   */
  lemma OpenedEndLeadsTo(h: Handle, hello: StreamHello)
    ensures var end, relayed := OpenedEnd(h, hello), hello.UserProxy? || hello.ProxyBuildConnectionToPeer?;
      && end.proxy == relayed && end.peer == (if relayed then hello.peer else h.peer)
      && end.handle == Handle(end.peer, h.local, h.side, end.proxy)
      && NewStreamHello(end.handle) == (if relayed then UserProxy(hello.peer) else User(h.local))
  {
  }
}
