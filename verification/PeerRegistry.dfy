/**
 The registry of connected peers and its registration tokens (src/registry.rs), and the connections that
 register and unregister themselves (src/connection.rs).
 */
module PeerRegistry {
  import opened Common

  datatype Entry<H> = Entry(handle: H, token: nat)

  // ---------- Specification on values ----------

  /** A newcomer overwrites the entry and gets the next token; a vacant entry starts at token 0. */
  function NextToken<H>(entries: map<PeerId, Entry<H>>, peer: PeerId): nat {
    if peer in entries then entries[peer].token + 1 else 0
  }

  function Registered<H>(entries: map<PeerId, Entry<H>>, peer: PeerId, handle: H): map<PeerId, Entry<H>> {
    entries[peer := Entry(handle, NextToken(entries, peer))]
  }

  predicate Removes<H>(entries: map<PeerId, Entry<H>>, peer: PeerId, token: nat) {
    peer in entries && entries[peer].token == token
  }

  function Unregistered<H>(entries: map<PeerId, Entry<H>>, peer: PeerId, token: nat): map<PeerId, Entry<H>> {
    if Removes(entries, peer, token) then entries - {peer} else entries
  }

  // ---------- The objects ----------

  class Registry<H> {
    var connectedPeers: map<PeerId, Entry<H>>

    constructor ()
      ensures connectedPeers == map[]
    {
      connectedPeers := map[];
    }

    method Peer(peer: PeerId) returns (handle: Option<H>)
      ensures handle.Some? <==> peer in connectedPeers
      ensures handle.Some? ==> handle.value == connectedPeers[peer].handle
    {
      handle := if peer in connectedPeers then Some(connectedPeers[peer].handle) else None;
    }

    method RegisterPeer(peer: PeerId, handle: H) returns (token: nat)
      modifies this
      ensures token == NextToken(old(connectedPeers), peer)
      ensures connectedPeers == Registered(old(connectedPeers), peer, handle)
    {
      if peer in connectedPeers {
        token := connectedPeers[peer].token + 1;
      } else {
        token := 0;
      }
      connectedPeers := connectedPeers[peer := Entry(handle, token)];
    }

    method UnregisterPeer(peer: PeerId, token: nat)
      modifies this
      ensures connectedPeers == Unregistered(old(connectedPeers), peer, token)
    {
      if peer in connectedPeers && connectedPeers[peer].token == token {
        connectedPeers := connectedPeers - {peer};
      }
    }
  }

  /** What one poll of the transport connection yields; after the last event it has ended. */
  datatype ConnectionEvent = Pending | Broken | IncomingStream(id: nat)

  /** The streams that are ready before anything else. */
  function ReadyStreams(events: seq<ConnectionEvent>): (ids: seq<nat>)
    ensures |ids| <= |events| && forall i :: 0 <= i < |ids| ==> events[i] == IncomingStream(ids[i])
    ensures |ids| < |events| ==> !events[|ids|].IncomingStream?
  {
    if events == [] || !events[0].IncomingStream? then [] else [events[0].id] + ReadyStreams(events[1..])
  }

  /** What comes behind them: nothing, or an event that ends the poll. */
  function BehindStreams(events: seq<ConnectionEvent>): (rest: seq<ConnectionEvent>)
    ensures rest == events[|ReadyStreams(events)|..]
    ensures rest != [] ==> !rest[0].IncomingStream?
  {
    if events == [] || !events[0].IncomingStream? then events else BehindStreams(events[1..])
  }

  class Connection<H> {
    const registry: Registry<H>
    const peer: PeerId
    const token: nat
    var events: seq<ConnectionEvent>
    var accepted: seq<nat>
    var done: bool

    constructor (registry: Registry<H>, peer: PeerId, handle: H, events: seq<ConnectionEvent>)
      modifies registry
      ensures this.registry == registry && this.peer == peer && this.events == events && accepted == [] && !done
      ensures token == NextToken(old(registry.connectedPeers), peer)
      ensures registry.connectedPeers == Registered(old(registry.connectedPeers), peer, handle)
    {
      var registrationToken := registry.RegisterPeer(peer, handle);
      this.registry, this.peer, this.events, accepted, done := registry, peer, events, [], false;
      token := registrationToken;
    }

    /**
     Accepts all streams that are ready, in order. The connection is done, and unregisters, exactly if it has
     failed or ended behind them; otherwise the poll stops where nothing is ready and leaves the registry alone.
     */
    method Poll()
      requires !done
      modifies this, registry
      ensures var rest := BehindStreams(old(events));
        && accepted == old(accepted) + ReadyStreams(old(events))
        && (done <==> rest == [] || rest[0].Broken?)
        && (!done <==> rest != [] && rest[0].Pending?)
        && events == (if rest == [] then [] else rest[1..])
      ensures registry.connectedPeers ==
        if done then Unregistered(old(registry.connectedPeers), peer, token) else old(registry.connectedPeers)
    {
      while events != []
        invariant !done && registry.connectedPeers == old(registry.connectedPeers)
        invariant accepted + ReadyStreams(events) == old(accepted) + ReadyStreams(old(events))
        invariant BehindStreams(events) == BehindStreams(old(events))
        decreases |events|
      {
        var e := events[0];
        events := events[1..];
        match e {
          case Pending => return;
          case Broken =>
            registry.UnregisterPeer(peer, token);
            done := true;
            return;
          case IncomingStream(id) =>
            Assoc(accepted, [id], ReadyStreams(events));
            accepted := accepted + [id];
        }
      }
      registry.UnregisterPeer(peer, token);
      done := true;
    }
  }

  // ---------- All runs of registering and unregistering ----------

  /** A connection with the token it got, and the occupancy period of its peer's entry at that time. */
  datatype Conn = Conn(peer: PeerId, token: nat, period: nat, open: bool)

  /** Entries hold the number of the connection that registered them; `removals` logs removed entries. */
  datatype World = World(entries: map<PeerId, Entry<nat>>, conns: seq<Conn>, removals: seq<PeerId>) {
    /** How often the entry of p was removed so far. */
    function Period(p: PeerId): nat { multiset(removals)[p] }
  }

  const EMPTY := World(map[], [], [])

  datatype Event = Register(peer: PeerId) | Unregister(conn: nat)

  /** A connection registers when it is made and unregisters once, when it ends. */
  function Step(w: World, e: Event): World {
    match e
    case Register(p) =>
      World(Registered(w.entries, p, |w.conns|),
            w.conns + [Conn(p, NextToken(w.entries, p), w.Period(p), true)], w.removals)
    case Unregister(i) =>
      if i >= |w.conns| || !w.conns[i].open then w else
      var c := w.conns[i];
      World(Unregistered(w.entries, c.peer, c.token), w.conns[i := c.(open := false)],
            if Removes(w.entries, c.peer, c.token) then w.removals + [c.peer] else w.removals)
  }

  function Run(w: World, events: seq<Event>): World
    decreases |events|
  {
    if events == [] then w else Run(Step(w, events[0]), events[1..])
  }

  /** How many connections registered for p in the given period. */
  function Count(conns: seq<Conn>, p: PeerId, period: nat): nat {
    if conns == [] then 0
    else
      var last := conns[|conns| - 1];
      Count(conns[..|conns| - 1], p, period) + (if last.peer == p && last.period == period then 1 else 0)
  }

  /** The entry belongs to an open connection that still holds exactly the entry's token. */
  predicate EntryOk(w: World, p: PeerId)
    requires p in w.entries
  {
    var e := w.entries[p];
    && e.handle < |w.conns| && w.conns[e.handle] == Conn(p, e.token, w.Period(p), true)
    && Count(w.conns, p, w.Period(p)) == e.token + 1
  }

  ghost predicate Inv(w: World) {
    && (forall p :: p in w.entries ==> EntryOk(w, p))
    && (forall p: PeerId, k: nat :: (k > w.Period(p) || (k == w.Period(p) && p !in w.entries)) ==> Count(w.conns, p, k) == 0)
    && (forall i :: 0 <= i < |w.conns| ==>
          w.conns[i].token == Count(w.conns[..i], w.conns[i].peer, w.conns[i].period))
  }

  lemma CountSnoc(conns: seq<Conn>, c: Conn, p: PeerId, k: nat)
    ensures Count(conns + [c], p, k) == Count(conns, p, k) + (if c.peer == p && c.period == k then 1 else 0)
  {
    assert (conns + [c])[..|conns|] == conns;
  }

  lemma {:induction false} CountClose(conns: seq<Conn>, i: nat, p: PeerId, k: nat)
    requires i < |conns|
    ensures Count(conns[i := conns[i].(open := false)], p, k) == Count(conns, p, k)
  {
    var closed := conns[i := conns[i].(open := false)];
    if i < |conns| - 1 {
      CountClose(conns[..|conns| - 1], i, p, k);
      assert closed[..|conns| - 1] == conns[..|conns| - 1][i := conns[i].(open := false)];
    } else {
      assert closed[..|conns| - 1] == conns[..|conns| - 1];
    }
  }

  lemma {:induction false} CountPrefix(conns: seq<Conn>, i: nat, j: nat, p: PeerId, k: nat)
    requires i <= j <= |conns|
    ensures Count(conns[..i], p, k) <= Count(conns[..j], p, k)
    decreases j - i
  {
    if i < j {
      CountPrefix(conns, i, j - 1, p, k);
      assert conns[..j] == conns[..j - 1] + [conns[j - 1]];
      CountSnoc(conns[..j - 1], conns[j - 1], p, k);
    }
  }

  /** Within one period the tokens of a peer's connections grow with every registration. */
  lemma TokensGrow(w: World, i: nat, j: nat)
    requires Inv(w) && i < j < |w.conns|
    requires w.conns[i].peer == w.conns[j].peer && w.conns[i].period == w.conns[j].period
    ensures w.conns[i].token < w.conns[j].token
  {
    var p, k := w.conns[i].peer, w.conns[i].period;
    assert w.conns[..i + 1] == w.conns[..i] + [w.conns[i]];
    CountSnoc(w.conns[..i], w.conns[i], p, k);
    CountPrefix(w.conns, i + 1, j, p, k);
  }

  lemma RegisterKeeps(w: World, p: PeerId)
    requires Inv(w)
    ensures Inv(Step(w, Register(p)))
  {
    var w' := Step(w, Register(p));
    var c := Conn(p, NextToken(w.entries, p), w.Period(p), true);
    forall q: PeerId, k: nat ensures Count(w'.conns, q, k) == Count(w.conns, q, k) + (if q == p && k == w.Period(p) then 1 else 0) {
      CountSnoc(w.conns, c, q, k);
    }
    forall q | q in w'.entries ensures EntryOk(w', q) {
      if q != p { assert EntryOk(w, q); } else if p in w.entries { assert EntryOk(w, p); }
    }
    forall i | 0 <= i < |w'.conns|
      ensures w'.conns[i].token == Count(w'.conns[..i], w'.conns[i].peer, w'.conns[i].period)
    {
      assert w'.conns[..i] == w.conns[..i];
      if i == |w.conns| {
        assert w.conns[..i] == w.conns;
        if p in w.entries { assert EntryOk(w, p); }
      }
    }
  }

  lemma UnregisterKeeps(w: World, i: nat)
    requires Inv(w) && i < |w.conns| && w.conns[i].open
    ensures Inv(Step(w, Unregister(i)))
  {
    var w' := Step(w, Unregister(i));
    var c := w.conns[i];
    forall q: PeerId, k: nat ensures Count(w'.conns, q, k) == Count(w.conns, q, k) { CountClose(w.conns, i, q, k); }
    forall q | q != c.peer ensures w'.Period(q) == w.Period(q) {}
    forall q | q in w'.entries ensures EntryOk(w', q) {
      assert EntryOk(w, q);
      assert w'.Period(q) == w.Period(q);
      assert w.entries[q].handle != i;
    }
    forall j | 0 <= j < |w'.conns|
      ensures w'.conns[j].token == Count(w'.conns[..j], w'.conns[j].peer, w'.conns[j].period)
    {
      if i < j {
        CountClose(w.conns[..j], i, w.conns[j].peer, w.conns[j].period);
        assert w'.conns[..j] == w.conns[..j][i := c.(open := false)];
      } else {
        assert w'.conns[..j] == w.conns[..j];
      }
    }
  }

  lemma {:induction false} RunKeeps(w: World, events: seq<Event>)
    requires Inv(w)
    ensures Inv(Run(w, events))
    decreases |events|
  {
    if events != [] {
      match events[0] {
        case Register(p) => RegisterKeeps(w, p);
        case Unregister(i) => if i < |w.conns| && w.conns[i].open { UnregisterKeeps(w, i); }
      }
      RunKeeps(Step(w, events[0]), events[1..]);
    }
  }

  /** No dangling handle: in every run each entry belongs to an open connection with exactly its token. */
  lemma EntriesBelongToOpenConnections(events: seq<Event>, p: PeerId)
    requires p in Run(EMPTY, events).entries
    ensures var w := Run(EMPTY, events);
      var e := w.entries[p];
      e.handle < |w.conns| && w.conns[e.handle].open && w.conns[e.handle].peer == p
      && w.conns[e.handle].token == e.token
  {
    RunKeeps(EMPTY, events);
    assert EntryOk(Run(EMPTY, events), p);
  }

  /** In every run the tokens of one occupancy period are 0, 1, 2, ... in the order of registration. */
  lemma TokensCountRegistrations(events: seq<Event>, i: nat)
    requires i < |Run(EMPTY, events).conns|
    ensures var w := Run(EMPTY, events);
      w.conns[i].token == Count(w.conns[..i], w.conns[i].peer, w.conns[i].period)
  {
    RunKeeps(EMPTY, events);
  }

  /**
   When an open connection unregisters, it takes away the entry of another connection exactly if it
   registered in an earlier occupancy period and the tokens happen to coincide. So of the connections of
   the current period only the latest one can remove the entry.
   */
  lemma StealsEntryIffStale(events: seq<Event>, i: nat)
    requires i < |Run(EMPTY, events).conns| && Run(EMPTY, events).conns[i].open
    ensures var w := Run(EMPTY, events);
      var c := w.conns[i];
      Removes(w.entries, c.peer, c.token) && w.entries[c.peer].handle != i <==>
      c.peer in w.entries && c.token == w.entries[c.peer].token && c.period < w.Period(c.peer)
  {
    RunKeeps(EMPTY, events);
    var w := Run(EMPTY, events);
    var c := w.conns[i];
    if c.peer in w.entries {
      assert EntryOk(w, c.peer);
      var h := w.entries[c.peer].handle;
      if c.period == w.Period(c.peer) && h != i {
        if h < i { TokensGrow(w, h, i); } else { TokensGrow(w, i, h); }
      }
      PeriodBound(w, i);
    }
  }

  /** No connection carries a period that has not begun. */
  lemma PeriodBound(w: World, i: nat)
    requires Inv(w) && i < |w.conns|
    ensures w.conns[i].period <= w.Period(w.conns[i].peer)
  {
    var c := w.conns[i];
    assert w.conns[..i + 1] == w.conns[..i] + [c];
    CountSnoc(w.conns[..i], c, c.peer, c.period);
    CountPrefix(w.conns, i + 1, |w.conns|, c.peer, c.period);
    assert w.conns[..|w.conns|] == w.conns;
  }

  /** The stale case is real: connection 0 removes the entry of connection 2, which is still open. */
  lemma StaleTokenRemovesForeignEntry() returns (events: seq<Event>)
    ensures var w := Run(EMPTY, events);
      |w.conns| == 3 && w.conns[2].open && w.conns[2].peer == 7 && 7 !in w.entries
  {
    events := [Register(7), Register(7), Unregister(1), Register(7), Unregister(0)];
    var w1 := Step(EMPTY, events[0]);
    var w2 := Step(w1, events[1]);
    var w3 := Step(w2, events[2]);
    var w4 := Step(w3, events[3]);
    var w5 := Step(w4, events[4]);
    assert events[1..][1..][1..][1..][1..] == [];
    assert Run(EMPTY, events) == w5;
  }
}
