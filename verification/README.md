# hole_punch: a verified model of its protocols and registries

hole_punch connects peers that may sit behind NAT. Its difficulty is in a handful of interacting state
machines on top of QUIC streams, and this project models those machines in Dafny and proves what every run
of them keeps.

| file | models |
|---|---|
| `Framing.dfy`, `Transport.dfy`, `ProtocolReader.dfy` | length-delimited frames, the transport stream with its overflow buffer, and one stream read through successive protocols |
| `RelayLine.dfy` | one direction of a relayed stream: writer, relay, reader |
| `Messages.dfy`, `Streams.dfy` | the control messages, the dispatch on a stream's first message, stream handles |
| `UserRelay.dfy` | a user stream through a relay |
| `BuildProtocol.dfy`, `BuildSafety.dfy`, `BuildProgress.dfy`, `AddressExchange.dfy`, `SampleSetup.dfy`, `RemoteBuilder.dfy` | the three-party protocol that builds a connection: initiator, relay, remote |
| `Identity.dfy` | who is at the other end of a stream, in a whole network |
| `PeerRegistry.dfy`, `ProviderSearch.dfy` | the registry of connected peers with its tokens, connections, and the search over providers |
| `RemoteRegistry.dfy`, `RemoteRegistrySafety.dfy`, `KeepAlive.dfy`, `AddressResolver.dfy` | lookups at a remote registry: coalescing, reconnecting, pings and pongs, addresses to try |
| `MdnsDiscovery.dfy`, `PeerName.dfy` | the bounded queue of mDNS lookups, hashed keys and the names made from them |

Where the source works on values (the initiator's states, hello to identity, names) the model uses datatypes
and functions. Where the source updates an object in place (the overflow buffer, the registry map, the
remote's builder, the request maps, the timers, the lookup queue) the model has a class whose methods are
proved against a function on values, and the theorems about whole runs are about that function.

## The main results

* **Connection building, at the level of bytes.** Initiator, relay and remote interleave freely; frames
  arrive in chunks of any size; every hop may break at any moment and lose what is on it. In every run the
  remote's `expect` on its internet address holds, the initiator never sees an unexpected or undecodable
  message, the control stream is handed over at most once and only as the initiator's own result, the two
  ends then name each other, and each user reads a prefix of what the other user wrote. As long as no hop was
  closed and nobody gave up, no reachable state is a dead end: from the first step on the handover stays
  possible, and after it the delivery of all user bytes. Each side learns exactly the addresses that the other
  one sent. A direct connection is accepted whoever answers;
  the project shows the run and the exact condition.
* **Protocol switching.** Whatever the chunking, the frames before a switch and the bytes after it are one
  decode of the whole stream, exactly if the switch is made between two frames: the decoder strips a frame's
  length before the payload is complete, so a switch in between loses four bytes.
* **Relayed user streams.** The opener may write right behind its hello, so its bytes can end up in the relay's
  frame buffer; none is lost or swallowed, and all of them can still arrive while nobody gave up.
* **Identity.** However deeply streams are opened from streams, each end names the other one. Both ends agree
  on the proxy flag unless a peer connected to itself acts as its own relay.
* **Registry tokens.** No entry outlives its connection. An unregistering connection removes a foreign entry
  exactly if it is a leftover of an earlier occupancy period with the same token.
* **Remote registry.** One message is under way for each wanted peer; over any number of reconnects every
  request is in exactly one place, can still be answered as long as it was not given up, is given up only for a
  cause that the run shows, and gets an answer that was true on the connection whose handle it comes with; the handler lives as long as the registry; the connection
  never times out exactly if pings are answered in less than two periods.
* **mDNS.** Queued lookups never outnumber live timers, and there are at most ten of those; announcing a hash
  and parsing the announcement gives the hash back.

## Assumptions

* Bytes on a hop arrive in order and unchanged until the hop is closed or cut. A cut loses a tail of what is
  on the wire; nothing written later arrives.
* A message that was sent and completed is flushed. The source ignores a not-ready result and drops the write
  buffer when it converts a stream (src/build_connection_to_peer.rs:208-212, src/stream.rs:114-119).
* Message encoding (JSON) is a parameter: any pair of functions whose decoder undoes the encoder and under
  which the five messages of fixed content that a setup sends fit into a frame. A list of addresses may exceed
  the largest frame, and then sending fails as in the source. `SampleSetup` constructs such encodings for all
  peers and addresses, so the theorems are about something.
* The identity stored with a connection is the identity of the peer at its other side.
* Timers do not fail, and time stands still within one poll. `MdnsDiscovery.TimerErrorKeepsIff` says exactly
  what a failing timer would do to the queue bound.
* A pong cannot be ready in the same poll that sends its ping.
* The transport never delivers an empty chunk where a read of zero bytes is concerned.

Where the source and its own comments differ, the model follows the source. The comment on registration
tokens (src/registry.rs:17-19) promises that only the last registered connection can remove an entry; tokens
restart at 0 after a removal, and `PeerRegistry.StaleTokenRemovesForeignEntry` is a run in which an older
connection removes a newer one's entry.

## Model

| member | source | states |
|---|---|---|
| `Messages.EveryHelloHasItsPurpose` | src/incoming_stream.rs:66-118 | Which hellos stay at the peer that receives them and for what, and which are relayed, to whom and under which hello. |
| `Streams.OpenedEndLeadsTo` | src/stream.rs:104-128 | Where a stream opened with a hello leads, and where new streams from its handle lead. |
| `Framing.DecodeConserves` | src/stream.rs:132-136 | Decoding neither loses nor invents a byte; a delivered payload leaves the decoder between two frames. |
| `Framing.DecodeInFrame` | src/stream.rs:132-136 | On the front of a framed stream the decoder can deliver only the next frame's payload and never reports an oversized frame. |
| `Framing.DecodeWholeFrame` | src/stream.rs:132-136 | A decoder that holds a whole frame delivers its payload. |
| `Framing.DecodeReports` | src/stream.rs:132-136 | What the decoder reports depends only on the bytes it holds: a payload exactly for a whole frame, an oversized frame exactly for a length that is too large. |
| `Framing.ParseFrames` | src/stream.rs:132-136 | Decoding a byte string at once undoes the framing, whatever follows. |
| `Transport.PollConserves` | src/strategies/mod.rs:206-211 | Polling hands over the front of the undelivered bytes and leaves the rest; it hands over nothing only if nothing is left. |
| `Transport.ReadConserves` | src/strategies/mod.rs:254-286 | A read hands over the front of the undelivered bytes; it returns nothing exactly if there is no room or nothing left; it fills the room unless overflow and chunk are used up; no empty overflow is stored. |
| `Transport.ReinsertConserves` | src/strategies/mod.rs:185-199 | Reinserted bytes come first again, before an older overflow. |
| `Transport.RunConserves` | src/strategies/mod.rs:185-286 | Over any interleaving of reads, polls and reinsertions of just delivered bytes, delivered plus undelivered bytes stay the same string. |
| `Transport.Stream.ReinsertData` | src/strategies/mod.rs:185-199 | Updates the overflow buffer in place as specified. |
| `Transport.Stream.Poll` | src/strategies/mod.rs:206-211 | Which of its four results a poll gives, exactly by overflow and next transport event; the overflow first, then one transport chunk; what is left of the transport events. |
| `Transport.Stream.CopyData` | src/strategies/mod.rs:255-265 | Fills the front of the destination with the front of the source, leaves the rest of the destination alone and returns the rest of the source, if any. |
| `Transport.Stream.Read` | src/strategies/mod.rs:254-286 | A count exactly for an overflow, a chunk or the end, would-block exactly for a pending transport, an error exactly for a broken one; the bytes delivered into the caller's buffer; zero only for an empty buffer, the end of the stream or an empty chunk. |
| `ProtocolReader.SwitchConservesIffBetweenFrames` | src/stream.rs:191-200 | Converting a protocol stream into a transport stream keeps every byte exactly if the decoder is between two frames. |
| `ProtocolReader.RunConserves` | src/stream.rs:162-200 | Over any session that switches between frames, received items plus bytes ahead stay the same string. |
| `ProtocolReader.RunDecodesOnce` | src/stream.rs:162-200 | For every chunking and every such sequence of switches, the control payloads received first and everything after them are one decode of the whole stream. |
| `ProtocolReader.ChunkingIsInvisible` | src/stream.rs:162-200 | Two sessions on the same bytes, however chunked and wherever they stopped, receive the same control frames as far as both receive any, and behind them received plus coming bytes are the same string. |
| `ProtocolReader.DrainedSessionsAgree` | src/stream.rs:162-200 | Two sessions that read the same bytes to the end as frames receive the same items. |
| `ProtocolReader.WholeStreamCanBeRead` | src/stream.rs:162-200 | Whatever part of it is buffered, a session can receive all frames of a framed stream, in order, and stands before what follows them. |
| `RelayLine.InjectKeeps` | src/build_connection_to_peer.rs:436-459 | The relay's own frames come in front of everything it forwards, also of user bytes that are already there. |
| `RelayLine.ForwardKeeps` | src/incoming_stream.rs:152-161 | Forwarding a chunk of any size, overflow first, keeps the order and content of the line. |
| `RelayLine.TakeDownKeeps` | src/build_connection_to_peer.rs:385-390 | A reader that still expects control frames decodes exactly the next one written; no user byte is taken for a frame. |
| `RelayLine.DeliverKeeps` | src/stream.rs:267-288 | User bytes taken off the line are the next ones written. |
| `RelayLine.DrainedLineIsComplete` | src/incoming_stream.rs:152-161 | With no hop closed and nothing under way the reader has every frame and every user byte. |
| `RelayLine.PumpedLineYields` | src/build_connection_to_peer.rs:385-390 | Once all bytes have reached the reader, the next control frame is there to be taken. |
| `BuildSafety.StepKeeps` | src/build_connection_to_peer.rs:169-459 | The invariant of the three parties, tying both byte lines to the states of initiator and remote, survives every event. |
| `BuildSafety.RelayPollsHelloKeeps` | src/incoming_stream.rs:111-119 | The relay recognises the initiator's hello, takes the requested peer as target and announces the initiator to it. |
| `BuildSafety.NoPanicAndNoIllegalMessage` | src/build_connection_to_peer.rs:186-255 | In no run does the remote's `expect` fail, and in no run does the initiator meet an illegal or undecodable message. |
| `BuildSafety.HandoverAgreement` | src/build_connection_to_peer.rs:321-337 | The remote hands the control stream over at most once and only if the initiator took it as its result; both ends then carry each other's identity and the proxy flag, and so do the handles they create streams with. |
| `BuildSafety.DirectResultIsNeverHandedOver` | src/build_connection_to_peer.rs:300-319 | After a direct result no continuation hands the control stream over. |
| `BuildSafety.UserBytesArriveInOrder` | src/build_connection_to_peer.rs:418-424 | Each user reads a prefix of what the other wrote, for every chunking, interleaving and loss; a drained open line means handover and full delivery. |
| `BuildSafety.AddressesAreExchanged` | src/build_connection_to_peer.rs:394-409 | The remote's internet address is the one at which the relay sees it, and each side's list ends with the address at which the relay sees the other side. |
| `AddressExchange.RemotePokesInitiator` | src/build_connection_to_peer.rs:397-416 | In every run, once the exchange is taken the remote has poked exactly the interface addresses of the event with which the initiator sent them, in order, and the address at which the relay sees it. |
| `AddressExchange.InitiatorTriesRemote` | src/build_connection_to_peer.rs:186-255 | In every run the addresses that the initiator tries are exactly the interface addresses of the event with which the remote sent them, in order, and the address at which the relay sees it. |
| `BuildSafety.DirectResultNamesConnectedPeer` | src/build_connection_to_peer.rs:286-319 | In every run a direct result leads to a peer that answered, and its stream and handle name that peer, unproxied. |
| `BuildSafety.DirectResultIsRequestedIff` | src/build_connection_to_peer.rs:257-319 | Once connecting, every direct result is the requested peer exactly if nobody else answers at the addresses; nothing compares the two. |
| `BuildProgress.InitiatorFallsBack` | src/build_connection_to_peer.rs:257-337 | After the address exchange the initiator can always fall back to the proxy stream. |
| `BuildProgress.HandoverStaysPossible` | src/build_connection_to_peer.rs:43-46 | In every run, from its start on and with any part of a frame under way, as long as no hop was closed and nobody gave up some continuation hands the stream over. |
| `BuildProgress.HandoverIsReachable` | src/build_connection_to_peer.rs:13-48 | For every valid setup the handover happens in some run. |
| `BuildProgress.DeliveryStaysPossible` | src/incoming_stream.rs:152-161 | After a handover, while the hops are open, some continuation delivers all that both users wrote. |
| `BuildProgress.RelayStopEndsWaiting` | src/build_connection_to_peer.rs:186-255 | When the relay stops, an initiator that waits for a message fails by its own polls and a waiting remote ends. |
| `BuildProgress.AnyPeerCanBeTheResult` | src/build_connection_to_peer.rs:286-297 | For every peer, asked for or not, some run ends with that peer as the direct result. |
| `SampleSetup.ValidSetupExists` | src/protocol.rs:7-46 | For all peers, connections, addresses and interface lists there is a valid setup: faithful codecs under which all messages of a run fit into a frame. |
| `SampleSetup.HandoverHappens` | src/build_connection_to_peer.rs:321-337 | For all peers and addresses, a setup and a run of it that ends with the handover. |
| `SampleSetup.RelayedStreamHappens` | src/incoming_stream.rs:81-89 | For all peers and bytes, a setup and a run in which bytes written right behind the hello arrive through the relay. |
| `SampleSetup.WrongPeerHappens` | src/build_connection_to_peer.rs:286-297 | For any two different peers, a setup and a run in which one is asked for and a direct stream to the other is the result. |
| `RemoteBuilder.CrashesIffExchangeComesFirst` | src/build_connection_to_peer.rs:394-409 | A poll of the remote's builder meets the failing `expect` exactly if its first message asks for addresses before any was set. |
| `RemoteBuilder.PassesAtFirstProxyConnection` | src/build_connection_to_peer.rs:418-431 | The stream is passed on exactly if a `ProxyConnection` is ready, and nothing behind that message is consumed. |
| `RemoteBuilder.PollLeavesBehind` | src/build_connection_to_peer.rs:394-416 | Without a crash every address of every list ahead of the first `ProxyConnection` is poked, in order; each list is answered by the own addresses and the internet address received last before it. |
| `RemoteBuilder.BuildConnectionToPeerRemote.Poll` | src/build_connection_to_peer.rs:383-433 | The loop handles messages in order and updates stream and address in place; what it has poked and sent, in terms of the messages that were ready. |
| `Identity.OpenIsSymmetric` | src/stream.rs:61-74 | A stream opened from a sound handle, direct or relayed, names the right peer at both ends; the proxy flags agree unless the handle is a proxied one on a connection of its owner to itself. |
| `Identity.OpensIff` | src/incoming_stream.rs:133-141 | Opening a stream fails exactly if it is to be relayed to a peer that the relay has not registered. |
| `Identity.DirectOpeningsConnect` | src/stream.rs:61-74 | In every network a stream from a registered handle or on a connection connects the two peers, unproxied. |
| `Identity.RelayedOpenIsOutcome` | src/incoming_stream.rs:81-89 | A stream opened through a relay is what the relaying of user streams arrives at. |
| `Identity.HandedOverIsSymmetric` | src/build_connection_to_peer.rs:331-336 | A handed-over control stream is symmetric, too. |
| `Identity.HandedOverIsOutcome` | src/build_connection_to_peer.rs:321-337 | Whenever a run of the three-party protocol in this network ends with the handover, the ends of the control stream are those of the handed-over stream. |
| `Identity.HandedOverIsReached` | src/build_connection_to_peer.rs:321-337 | Such a run exists for every pair of peers that share a relay. |
| `UserRelay.StepKeeps` | src/incoming_stream.rs:81-89 | The invariant of a relayed user stream, whose user bytes may follow the hello at once, survives every event. |
| `UserRelay.UserBytesPassTheRelay` | src/incoming_stream.rs:125-163 | In every run each user of a relayed stream reads a prefix of what the other wrote, the target names the opener, and nobody meets an unexpected hello. |
| `UserRelay.DrainedIsDelivered` | src/incoming_stream.rs:152-161 | With no hop closed and nothing under way everything was delivered. |
| `UserRelay.DeliveryStaysPossible` | src/incoming_stream.rs:141-163 | As long as nobody gave up and no hop was closed, some continuation delivers to the target all that the opener wrote. |
| `Identity.EveryStreamIsSymmetric` | src/stream.rs:104-128 | In every network and for every chain of openings each end names the other, and the flags agree unless a peer connected to itself relays for itself. |
| `Identity.SelfRelayDisagrees` | src/incoming_stream.rs:69-80 | A run in which the two ends disagree on the proxy flag. |
| `PeerRegistry.Registry.Peer` | src/registry.rs:57-59 | Returns the registered handle, if there is one. |
| `PeerRegistry.Registry.RegisterPeer` | src/registry.rs:65-84 | Overwrites the entry and raises the token, or starts at token 0. |
| `PeerRegistry.Registry.UnregisterPeer` | src/registry.rs:86-97 | Removes the entry exactly if the token matches. |
| `PeerRegistry.Connection.constructor` | src/connection.rs:118-149 | A new connection registers once and keeps the token it got. |
| `PeerRegistry.Connection.Poll` | src/connection.rs:169-200 | Accepts exactly the streams that are ready, in order; it is done, and unregisters, exactly if the connection has failed or ended behind them; otherwise it stops where nothing is ready and leaves the registry alone. |
| `PeerRegistry.TokensGrow` | src/registry.rs:71-77 | Within one occupancy period tokens grow with every registration. |
| `PeerRegistry.TokensCountRegistrations` | src/registry.rs:65-84 | In every run the tokens of a period are 0, 1, 2, ... in the order of registration. |
| `PeerRegistry.EntriesBelongToOpenConnections` | src/registry.rs:65-97 | In every run each entry belongs to a connection that has not unregistered and holds exactly the entry's token. |
| `PeerRegistry.StealsEntryIffStale` | src/registry.rs:86-97 | An unregistering connection removes a foreign entry exactly if it registered in an earlier period and the tokens coincide. |
| `PeerRegistry.StaleTokenRemovesForeignEntry` | src/registry.rs:78-81 | A run in which that happens. |
| `ProviderSearch.SearchRemoteRegistries.Poll` | src/registry.rs:139-153 | One poll drains completed providers in any order and ends; a pending result leaves only providers that have not completed. |
| `ProviderSearch.Search` | src/registry.rs:104-153 | For every schedule the answer is `NotFound` only if every provider failed or said so, and otherwise some provider's own positive answer. |
| `AddressResolver.PollKeepsSpacing` | src/registries/remote.rs:230-247 | A poll ends, never yields the end of the stream, and restarts the resolvers at most once and only after the wait. |
| `AddressResolver.RestartsKeepTheirDistance` | src/registries/remote.rs:234-242 | Over all runs restarts are at least the configured wait apart. |
| `AddressResolver.AddressesComeInOrder` | src/registries/remote.rs:214-247 | Over all runs of a new resolver, also with a zero wait, the addresses yielded so far followed by those still held are exactly the addresses of all resolutions from the first on, in order. |
| `AddressResolver.PollAnswers` | src/registries/remote.rs:230-247 | A poll answers the first event of the current resolution that is not an error, or if only errors are left and the wait is over, that of the next; it is not ready only at a pending resolution or during the wait. |
| `AddressResolver.PollEndsIff` | src/registries/remote.rs:230-247 | A poll ends exactly if the wait is positive or not over, or the current resolution or a later one yields something. |
| `AddressResolver.ZeroWaitSpins` | src/registries/remote.rs:230-247 | With a wait of zero and resolvers that yield nothing a poll never ends. |
| `AddressResolver.GetNextAddr.PollNext` | src/registries/remote.rs:230-247 | Every poll that ends, also with a wait of zero, is some number of turns of the loop; it never yields the end of the stream, and for a positive wait it does what the specification says. |
| `KeepAlive.NeverTimesOutIffFastEnough` | src/registries/remote.rs:414-424 | No run times out exactly if every ping is answered in less than two periods. |
| `KeepAlive.SlowRun` | src/registries/remote.rs:470-481 | With two periods or more there is a run that times out. |
| `KeepAlive.TimeoutMeansSilence` | src/registries/remote.rs:476-478 | A timeout means that no pong was handled for three periods. |
| `KeepAlive.NoTickIsSkipped` | src/registries/remote.rs:470-474 | However late the polls are, each ping belongs to its own tick of the period. |
| `KeepAlive.PingPong.PollPingAndPong` | src/registries/remote.rs:470-481 | Handles at most one tick and checks the deadline. |
| `KeepAlive.PingPong.HandlePong` | src/registries/remote.rs:516-523 | Moves the deadline into the future, so the `panic!` behind it is not reached. |
| `RemoteRegistry.PopAllEmpties` | src/registries/remote.rs:427-464 | Emptying a queue gives up exactly the cancelled requests, answers exactly the live ones for the provider in order, lets all others wait in order behind those that waited, and sends one `Find` per peer newly waited for. |
| `RemoteRegistry.OutgoingStream.PollFindPeerRequest` | src/registries/remote.rs:427-464 | The loop does exactly that to the fields of the object. |
| `RemoteRegistry.OutgoingStream.Answer` | src/registries/remote.rs:501-506 | Every sender waiting for a peer gets the result once, and the peer is no longer waited for. |
| `RemoteRegistry.HandleAllHandles` | src/registries/remote.rs:492-526 | Emptying an inbox stops waiting exactly for the peers it has an answer about, answers exactly the requests for those, once each, and with what the first answer said. |
| `RemoteRegistry.OutgoingStream.PollMessages` | src/registries/remote.rs:492-526 | The loop does exactly that to the fields of the object. |
| `RemoteRegistry.IncomingStream.Poll` | src/registries/remote.rs:551-576 | Consumes all messages that are ready and sends their replies behind what was sent before. |
| `RemoteRegistry.RepliesAnswerQuestions` | src/registries/remote.rs:558-573 | The replies answer each `Find` by the registry's content and each `Ping` by a `Pong`, one by one and in order, and nothing else. |
| `RemoteRegistry.PopAllIsARun` | src/registries/remote.rs:427-464 | What the object does in one poll is a run of the state machine: one pop for each request, cancelled exactly if its caller has gone. |
| `RemoteRegistry.HandleAllIsARun` | src/registries/remote.rs:492-526 | The same for the message loop, one step for each message. |
| `RemoteRegistry.ServeAllIsARun` | src/registries/remote.rs:551-576 | The same for the server, one step for each message, by the content of its registry. |
| `RemoteRegistrySafety.OneMessagePerWantedPeer` | src/registries/remote.rs:450-461 | For each peer exactly one Find or answer is under way if someone waits for it, none otherwise; no list of waiting senders is empty. |
| `RemoteRegistrySafety.RequestsAreInOnePlace` | src/registries/remote.rs:319-389 | Over all reconnects every submitted request is in exactly one place, once: queued, waiting, answered or given up; the queue keeps the order of submission. |
| `RemoteRegistrySafety.StepTreats` | src/registries/remote.rs:427-464 | A step gives a request up exactly if its caller cancelled it, or it waits on a connection that ends, or it is held by a handler that stops; otherwise the request stays or moves on, and answers and losses stay. |
| `RemoteRegistrySafety.LossHasItsCause` | src/registries/remote.rs:319-389 | For every request given up in a run there is the event that gave it up, for the reason on record. |
| `RemoteRegistrySafety.NothingIsLost` | src/registries/remote.rs:427-464 | Without cancelled callers, lost connections and a dropped registry every submitted request is queued, waiting or answered. |
| `RemoteRegistrySafety.RequestsOnlyMoveForward` | src/registries/remote.rs:427-468 | From any moment of a run to a later one an answer stays, and so does a loss, with its reason. |
| `RemoteRegistrySafety.DroppedIsFinal` | src/registries/remote.rs:488-527 | A request given up is never answered; an answered one is never given up, queued or answered again. |
| `RemoteRegistrySafety.ReconnectKeepsQueue` | src/registries/remote.rs:341-389 | Connecting, failing and losing the connection hand the queue over unchanged. |
| `RemoteRegistrySafety.ResultsAreTrue` | src/registries/remote.rs:498-515 | Every result was given in some event on a connection whose provider last answered just that about the peer asked for, or is that peer; the handle in the result is the one of that connection. |
| `RemoteRegistrySafety.HandlerOutlivesRegistry` | src/registries/remote.rs:144-147 | While the registry exists the handler does not end, so submitting a request cannot fail; the request comes last in the queue, in whatever state the handler is. |
| `RemoteRegistrySafety.AnswerStaysPossible` | src/registries/remote.rs:319-389 | In every run, while the registry exists, a request that is queued or waits is answered in some continuation. |
| `MdnsDiscovery.NoMorePeersThanTimers` | src/registries/mdns.rs:280-298 | If every queued peer has a timer there are at least as many timers as queued peers. |
| `MdnsDiscovery.QueueIsBounded` | src/registries/mdns.rs:245-298 | In every run queued requests are at most the live timers, which are at most ten, and each queued peer has one. |
| `MdnsDiscovery.TimerErrorKeepsIff` | src/registries/mdns.rs:253 | A failing timer keeps the bound exactly if its peer is not queued or has another timer. |
| `MdnsDiscovery.RequestHolds` | src/registries/mdns.rs:275-304 | A lookup of a known peer is served at once; one of an unknown peer is never served, and waits with one new timer exactly if it is the first for its peer and there is room; other lookups are untouched. |
| `MdnsDiscovery.RequestsAreAnswered` | src/registries/mdns.rs:267-305 | What a whole sequence of lookups does: those of known peers are served in order; of the new peers the first ones that find room are queued with the first sender, each with a timer of ten seconds. |
| `MdnsDiscovery.FoundHolds` | src/registries/mdns.rs:199-212 | A found peer becomes known, leaves the queue, and the lookup that waited for it is fulfilled. |
| `MdnsDiscovery.FoundPeersAreServed` | src/registries/mdns.rs:185-214 | Exactly the found peers other than the local one become known and leave the queue, and exactly their lookups are served, once each. |
| `MdnsDiscovery.NoLookupIsServedTwice` | src/registries/mdns.rs:259-306 | In every run a lookup is queued and fulfilled at most as often as it was requested. |
| `MdnsDiscovery.FullTimeIffNoOldTimer` | src/registries/mdns.rs:286-297 | In every run in which its peer is not found a queued request keeps its full ten seconds, exactly if no older timer of that peer runs out before. |
| `MdnsDiscovery.GivenUpEarly` | src/registries/mdns.rs:248-251 | A run in which a request is given up after one second. |
| `MdnsDiscovery.Discovery.PollResults` | src/registries/mdns.rs:185-214 | The loop does exactly that to the fields of the object. |
| `MdnsDiscovery.Discovery.PollQueuedRequestsTimeouts` | src/registries/mdns.rs:245-256 | Removes exactly the expired timers and the requests of their peers, in whatever order the timers fire. |
| `MdnsDiscovery.Discovery.PollRequests` | src/registries/mdns.rs:267-305 | Serves, queues and drops a sequence of lookups as stated for `RequestsAreAnswered`, and keeps the bound. |
| `PeerName.FromHashed` | src/pubkey.rs:165-171 | Accepts exactly hashes of at most 64 bytes and stores their content. |
| `PeerName.FromHashedChecked` | src/pubkey.rs:190-199 | Fills the front of a zeroed buffer. |
| `PeerName.RebuildsFromContent` | src/pubkey.rs:58-87 | Deserialising what was serialised gives the hash back. |
| `PeerName.EqVersusCmp` | src/pubkey.rs:40-105 | Equal hashes hash and compare alike; the order calls unequal hashes equal exactly if they differ in length and have the same buffer. |
| `PeerName.CmpEqualWithoutEq` | src/pubkey.rs:46-50 | Two such hashes. |
| `PeerName.CompareIsLexicographic` | src/pubkey.rs:46-50 | The order of buffers is the lexicographic one, the same from both sides. |
| `PeerName.HexRoundTrip` | src/pubkey.rs:109-113 | Parsing printed hexadecimal gives the bytes back. |
| `PeerName.DecodesIffHex` | src/pubkey.rs:175-182 | Parsing succeeds exactly on an even number of digits, of either case. |
| `PeerName.ServiceName` | src/registries/mdns.rs:59-63 | The configured name, with an underscore in front unless it has one. |
| `PeerName.FoundBehind` | src/registries/mdns.rs:127 | The record name is found behind the hash and not inside it. |
| `PeerName.NameRoundTrip` | src/registries/mdns.rs:121-130 | Announcing a hash in two labels and parsing the announcement gives the hash back. |
| `PeerName.LabelsFitIffShort` | src/registries/mdns.rs:329-335 | Both labels respect the 63 octets of section 2.3.4 of RFC 1035 exactly for hashes of at most 63 bytes; a dot stands between two equal halves. |
| `PeerName.TryFrom` | src/registries/mdns.rs:111-140 | The loop yields the peer named last with all ports and addresses, or nothing. |
| `PeerName.OneMoreRecord` | src/registries/mdns.rs:116-132 | One record more: a PTR record that has the record name in its value replaces the peer, by nothing if it does not parse; ports and addresses are appended. |
| `PeerName.RejectedIff` | src/registries/mdns.rs:121-139 | A response is rejected exactly if some PTR name does not begin with the service name or no peer is named. |
| `PeerName.ResponseNamesPeer` | src/registries/mdns.rs:116-139 | A response in which every PTR record announces a peer names that peer. |
| `PeerName.AnnouncedPeerIsParsed` | src/registries/mdns.rs:59-139 | From the configured service name through the announcement to the parsed result: the announced peer with the response's ports and addresses. |
| `PeerName.NothingToTryIff` | src/registries/mdns.rs:216-220 | An accepted response leaves no address to try exactly if it has no SRV record or no address record. |
| `PeerName.AnnouncementAloneIsAccepted` | src/registries/mdns.rs:217-237 | The announcement alone is such a response; `select_ok` does not accept an empty list. |
| `PeerName.SocketAddresses` | src/registries/mdns.rs:216-220 | Tries every address with every port, port by port; the list is empty exactly if one of the two is missing. |

## Left out

- QUIC, the boxed strategy wrappers, certificates and OpenSSL hashing: foreign calls; a connection's identity is taken as given.
- src/context.rs and src/connect.rs: wiring of futures, and a single strategy in practice.
- src/config.rs, src/error.rs, src/lib.rs: builders and conversions.
- The object in src/incoming_stream.rs: its dispatch on a hello is the function `Messages.PurposeOf`, used by the steps of relays and remotes; taking the `stream` field is the change of the party's state.
- The splice of two streams: one step moves one chunk; a chunk that the relay holds between polling and sending counts as still on the wire.
- Registration tokens are unbounded numbers; the overflow of a 64-bit token after that many registrations of one peer is not modelled.
- Cancelled callers, failing sends on the registry stream and the ten-second limit of a single request appear as events (a cancelled request, the end of a connection), not as code.
- The mDNS responder's registration loop, DNS resolution, network interfaces and the internals of the LRU cache: a cached peer may drop out at any time.
- Fairness and wake-ups of the runtime, beyond the polling rules in `KeepAlive.Due`.
