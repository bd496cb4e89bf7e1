/** What every run of the remote registry keeps: matching, placement, order, and the life of the handler. */
module RemoteRegistrySafety {
  import opened Common
  import opened Messages
  import opened RemoteRegistry

  // ---------- One connection: requests and messages in flight match ----------

  /** Finds and answers for p under way. */
  function InFlight(l: Link, p: PeerId): nat {
    multiset(l.out)[Find(p)] + multiset(l.inbox)[Found(p)] + multiset(l.inbox)[NotFound(p)]
  }

  /** Someone waits for p exactly if exactly one message about p is under way. */
  ghost predicate Matching(l: Link) {
    forall p: PeerId :: InFlight(l, p) == if p in l.requests then 1 else 0
  }

  predicate Waiting(l: Link) {
    forall p :: p in l.requests ==> p != l.provider && l.requests[p] != []
  }

  /** The first request of the queue is to wait for an answer. */
  predicate Waits(l: Link, cancelled: bool) { l.queue != [] && !cancelled && l.queue[0].peer != l.provider }

  /** The first request of the queue has joined those that wait, if it is to wait. */
  predicate Joined(l: Link, l': Link, cancelled: bool)
    requires l.queue != []
  {
    var req := l.queue[0];
    l'.requests == if !Waits(l, cancelled) then l.requests else l.requests[req.peer := Batch(l, req.peer) + [req]]
  }

  /** What popping a request changes. */
  lemma PopMoves(c: Client, cancelled: bool)
    requires c.link.queue != []
    ensures var c', l := PopRequest(c, cancelled), c.link;
      var l', req := c'.link, l.queue[0];
      && l'.provider == l.provider && l'.queue == l.queue[1..] && l'.inbox == l.inbox
      && l'.out == l.out + (if Waits(l, cancelled) && req.peer !in l.requests then [Find(req.peer)] else [])
      && Joined(l, l', cancelled)
      && c'.answered == c.answered + (if !cancelled && req.peer == l.provider then [req] else [])
      && c'.dropped == (if cancelled then c.dropped[req := Cancelled] else c.dropped)
      && (|c.results| == |c.answered| ==> |c'.results| == |c'.answered|)
  {
    var l := c.link;
    var req := l.queue[0];
    assert [] + [req] == [req] && l.out + [] == l.out && c.answered + [] == c.answered;
  }

  lemma PopKeepsMatching(c: Client, cancelled: bool)
    requires c.link.queue != [] && Matching(c.link) && Waiting(c.link)
    ensures Matching(PopRequest(c, cancelled).link) && Waiting(PopRequest(c, cancelled).link)
  {
    PopMoves(c, cancelled);
    var l, l' := c.link, PopRequest(c, cancelled).link;
    hide PopRequest;
    forall p: PeerId
      ensures InFlight(l', p) == if p in l'.requests then 1 else 0
    {
      assert InFlight(l, p) == if p in l.requests then 1 else 0;
      InFlightAfterPop(l, l', if Waits(l, cancelled) && l.queue[0].peer !in l.requests then [Find(l.queue[0].peer)] else [], p);
      hide InFlight;
    }
    hide InFlight;
  }

  lemma InFlightAfterPop(l: Link, l': Link, sent: seq<RegistryMessage>, p: PeerId)
    requires l'.inbox == l.inbox && l'.out == l.out + sent
    ensures InFlight(l', p) == InFlight(l, p) + multiset(sent)[Find(p)]
  {
  }

  lemma HandleKeepsMatching(c: Client)
    requires c.link.inbox != [] && Matching(c.link) && Waiting(c.link)
    ensures Matching(HandleMessage(c).link) && Waiting(HandleMessage(c).link)
  {
    var l, l' := c.link, HandleMessage(c).link;
    forall p: PeerId
      ensures InFlight(l', p) == if p in l'.requests then 1 else 0
    {
      assert InFlight(l, p) == if p in l.requests then 1 else 0;
      InFlightAfterHandle(l, p);
      assert InFlight(l', p) == InFlight(l.(inbox := l.inbox[1..]), p);
    }
    hide InFlight;
  }

  lemma InFlightAfterHandle(l: Link, p: PeerId)
    requires l.inbox != []
    ensures InFlight(l, p) == InFlight(l.(inbox := l.inbox[1..]), p)
      + (if l.inbox[0] == Found(p) || l.inbox[0] == NotFound(p) then 1 else 0)
  {
    assert l.inbox == [l.inbox[0]] + l.inbox[1..];
  }

  lemma ServeKeepsMatching(l: Link, has: bool)
    requires l.out != [] && Matching(l)
    ensures Matching(ServeMessage(l, has))
  {
    var l' := ServeMessage(l, has);
    assert l.out == [l.out[0]] + l.out[1..];
    forall p: PeerId
      ensures InFlight(l', p) == InFlight(l, p)
    {
    }
  }

  // ---------- Placement of requests ----------

  predicate Known(w: World, r: Request) { r.id < |w.submitted| && w.submitted[r.id] == r.peer }

  function Queued(w: World, r: Request): nat {
    if w.phase.Stopped? then 0 else multiset(Queue(w.phase))[r]
  }

  function Pending(w: World, r: Request): nat {
    if w.phase.HandleConnection? then multiset(Batch(w.phase.link, r.peer))[r] else 0
  }

  function Answered(w: World, r: Request): nat { multiset(w.answered)[r] }

  function Dropped(w: World, r: Request): nat { if r in w.dropped then 1 else 0 }

  /** In how many places a request is: queued, waiting for the server, answered, or given up. */
  function Places(w: World, r: Request): nat { Queued(w, r) + Pending(w, r) + Answered(w, r) + Dropped(w, r) }

  /** Every submitted request is in exactly one place, and nothing else is anywhere. */
  ghost predicate PlacedOnce(w: World) {
    forall r: Request :: Places(w, r) == (if Known(w, r) then 1 else 0)
  }

  /** The queue holds requests in the order of their submission. */
  predicate InOrder(q: seq<Request>) { forall i, j :: 0 <= i < j < |q| ==> q[i].id < q[j].id }

  // ---------- Truth of the answers ----------

  /** An answer on its way is the last thing that the provider said about the peer. */
  predicate Told(l: Link, verdicts: map<PeerId, bool>) {
    forall i :: 0 <= i < |l.inbox| ==>
      (l.inbox[i].Found? ==> l.inbox[i].peer in verdicts && verdicts[l.inbox[i].peer]) &&
      (l.inbox[i].NotFound? ==> l.inbox[i].peer in verdicts && !verdicts[l.inbox[i].peer])
  }

  /**
   Given on a connection to `provider`, whose last words about each peer are `verdicts`, the result of `r` is
   true, and the handle that comes with it leads to this provider.
   */
  predicate ResultOk(provider: PeerId, verdicts: map<PeerId, bool>, r: Request, result: Result) {
    match result
    case FoundWithHandle(via) => via == provider == r.peer
    case FoundRemote(via) => via == provider && r.peer in verdicts && verdicts[r.peer]
    case PeerNotFound => r.peer in verdicts && !verdicts[r.peer]
  }

  // ---------- The invariant ----------

  ghost predicate LinkOk(w: World, l: Link) { Matching(l) && Waiting(l) && FiledRight(l) && Told(l, w.verdicts) }

  predicate Living(w: World) {
    (w.registryAlive ==> !w.phase.Stopped?) && !w.sendFailed && |w.results| == |w.answered|
  }

  predicate QueueOk(w: World) {
    !w.phase.Stopped? ==> InOrder(Queue(w.phase)) && forall i :: 0 <= i < |Queue(w.phase)| ==> Known(w, Queue(w.phase)[i])
  }

  ghost predicate Inv(w: World) {
    && Living(w) && QueueOk(w) && PlacedOnce(w)
    && (w.phase.HandleConnection? ==> LinkOk(w, w.phase.link))
  }

  // ---------- Each step: where requests move ----------

  lemma CountCons(x: Request, s: seq<Request>, r: Request)
    ensures multiset([x] + s)[r] == multiset(s)[r] + (if r == x then 1 else 0)
  {
  }

  lemma CountSnoc(s: seq<Request>, x: Request, r: Request)
    ensures multiset(s + [x])[r] == multiset(s)[r] + (if r == x then 1 else 0)
  {
  }

  /** The senders of a connection are the pending requests. */
  lemma SendersArePending(w: World, r: Request)
    requires w.phase.HandleConnection? && FiledRight(w.phase.link)
    ensures r in Senders(w.phase.link.requests) <==> Pending(w, r) > 0
  {
    var requests := w.phase.link.requests;
    if r in Senders(requests) {
      var p :| p in requests && r in requests[p];
      assert r.peer == p;
      assert r in multiset(requests[p]);
    }
    if Pending(w, r) > 0 {
      assert r in multiset(requests[r.peer]);
      assert r.peer in requests && r in requests[r.peer];
    }
  }

  lemma HeldIsPlaced(w: World, r: Request)
    requires !w.phase.Stopped? && (w.phase.HandleConnection? ==> FiledRight(w.phase.link))
    ensures r in HeldBy(w.phase) <==> Queued(w, r) + Pending(w, r) > 0
  {
    if w.phase.HandleConnection? { SendersArePending(w, r); }
    assert r in Queue(w.phase) <==> r in multiset(Queue(w.phase));
    hide Senders, Pending;
  }

  /** Why a step gives a request up, if it does. */
  function Cause(w: World, e: Event, r: Request): Option<Loss> {
    if Stops(w, e) then
      if Queued(w, r) + Pending(w, r) > 0 then Some(HandlerStopped) else None
    else if e == Pop(true) && w.phase.HandleConnection? && w.phase.link.queue != [] && w.phase.link.queue[0] == r then
      Some(Cancelled)
    else if e == ConnectionEnds && w.phase.HandleConnection? && Pending(w, r) > 0 then Some(ConnectionLost)
    else None
  }

  /** The handler notices in this step that the registry is gone. */
  predicate Stops(w: World, e: Event) {
    && !w.registryAlive
    && match w.phase
       case RequestNextPeerAddr(_) => e.AddressReady?
       case ConnectToPeer(_) => e.ConnectFails? || e.Connected? || e.CheckDropped?
       case HandleConnection(_) => e.ConnectionEnds? || e.CheckDropped?
       case Stopped => false
  }

  /** How a step treats a request: it is given up for the cause named, and otherwise it stays or moves on. */
  predicate Treats(w: World, w': World, r: Request, cause: Option<Loss>) {
    && Places(w', r) == Places(w, r)
    && Answered(w', r) >= Answered(w, r)
    && (r in w'.dropped <==> r in w.dropped || cause.Some?)
    && (r in w.dropped ==> w'.dropped[r] == w.dropped[r])
    && (r !in w.dropped && cause.Some? ==> w'.dropped[r] == cause.value)
  }

  lemma GivenUp(dropped: map<Request, Loss>, rs: set<Request>, why: Loss, r: Request)
    ensures var dropped' := GiveUp(dropped, rs, why);
      && (r in dropped' <==> r in dropped || r in rs)
      && (r in rs ==> dropped'[r] == why) && (r in dropped && r !in rs ==> dropped'[r] == dropped[r])
  {
  }

  /** All that the handler holds is given up when it stops. */
  lemma StopPlaces(w: World, next: World, r: Request)
    requires !w.phase.Stopped? && !w.registryAlive && Places(w, r) <= 1
    requires w.phase.HandleConnection? ==> FiledRight(w.phase.link)
    ensures Treats(w, StopIfDropped(w, next), r,
              if Queued(w, r) + Pending(w, r) > 0 then Some(HandlerStopped) else None)
  {
    HeldIsPlaced(w, r);
    GivenUp(w.dropped, HeldBy(w.phase), HandlerStopped, r);
    hide HeldBy, GiveUp, FiledRight;
  }

  /** All that waits on a connection is given up when it ends. */
  lemma EndPlaces(w: World, r: Request)
    requires w.phase.HandleConnection? && w.registryAlive && FiledRight(w.phase.link) && Places(w, r) <= 1
    ensures Treats(w, StepHandler(w, ConnectionEnds), r, if Pending(w, r) > 0 then Some(ConnectionLost) else None)
  {
    SendersArePending(w, r);
    GivenUp(w.dropped, Senders(w.phase.link.requests), ConnectionLost, r);
    hide Senders, GiveUp, FiledRight;
  }

  lemma StoppingStep(w: World, e: Event)
    requires Stops(w, e)
    ensures StepHandler(w, e) == StopIfDropped(w, w)
  {
    hide HeldBy, GiveUp;
  }

  /** Every other move of the handler takes the queue along. */
  lemma MovePlaces(w: World, e: Event, r: Request)
    requires !Stops(w, e) && !(e.ConnectionEnds? && w.phase.HandleConnection?)
    ensures Treats(w, StepHandler(w, e), r, None)
  {
    var w' := StepHandler(w, e);
    assert w'.dropped == w.dropped && w'.answered == w.answered;
    assert w'.phase.Stopped? <==> w.phase.Stopped?;
    assert !w.phase.Stopped? ==> Queue(w'.phase) == Queue(w.phase);
    hide HeldBy, GiveUp, Senders;
  }

  lemma HandlerPlaces(w: World, e: Event, r: Request)
    requires (w.phase.HandleConnection? ==> FiledRight(w.phase.link)) && Places(w, r) <= 1
    ensures Treats(w, StepHandler(w, e), r, if e.Pop? then None else Cause(w, e, r))
  {
    hide Treats, Places, FiledRight, Queued, Pending, StepHandler, StopIfDropped;
    if Stops(w, e) {
      StoppingStep(w, e);
      StopPlaces(w, w, r);
    } else if e.ConnectionEnds? && w.phase.HandleConnection? {
      EndPlaces(w, r);
    } else {
      MovePlaces(w, e, r);
    }
  }

  lemma PopStep(w: World, cancelled: bool)
    requires w.phase.HandleConnection? && w.phase.link.queue != []
    ensures StepConnection(w, Pop(cancelled)) == WithClient(w, PopRequest(ClientOf(w), cancelled))
  {
    hide PopRequest;
  }

  lemma PopQueued(q: seq<Request>, r: Request)
    requires q != []
    ensures multiset(q)[r] == multiset(q[1..])[r] + (if r == q[0] then 1 else 0)
  {
    assert q == [q[0]] + q[1..];
    CountCons(q[0], q[1..], r);
  }

  lemma PopPending(l: Link, l': Link, cancelled: bool, r: Request)
    requires l.queue != [] && Joined(l, l', cancelled)
    ensures multiset(Batch(l', r.peer))[r] ==
      multiset(Batch(l, r.peer))[r] + (if Waits(l, cancelled) && r == l.queue[0] then 1 else 0)
  {
    var req := l.queue[0];
    if Waits(l, cancelled) && r.peer == req.peer {
      assert Batch(l', r.peer) == Batch(l, req.peer) + [req];
      CountSnoc(Batch(l, req.peer), req, r);
    } else {
      assert Batch(l', r.peer) == Batch(l, r.peer);
    }
  }

  /** A popped request is given up exactly if it was cancelled; else it is answered or waits. */
  lemma PopPlaces(w: World, cancelled: bool, r: Request)
    requires w.phase.HandleConnection? && w.phase.link.queue != [] && Places(w, r) <= 1
    ensures Treats(w, StepConnection(w, Pop(cancelled)), r,
              if cancelled && w.phase.link.queue[0] == r then Some(Cancelled) else None)
  {
    var l, l' := w.phase.link, PopRequest(ClientOf(w), cancelled).link;
    PopStep(w, cancelled);
    PopMoves(ClientOf(w), cancelled);
    PopQueued(l.queue, r);
    PopPending(l, l', cancelled, r);
    CountSnoc(w.answered, l.queue[0], r);
    hide PopRequest, StepConnection, Joined, Batch;
  }

  /** The first message is an answer that somebody waits for. */
  predicate Awaited(l: Link) {
    l.inbox != [] && (l.inbox[0].Found? || l.inbox[0].NotFound?) && l.inbox[0].peer in l.requests
  }

  /** What handling a message changes for the requests. */
  lemma HandleMoves(w: World)
    requires w.phase.HandleConnection? && w.phase.link.inbox != []
    ensures var w', l := StepConnection(w, Handle), w.phase.link;
      && w'.phase.HandleConnection? && w'.phase.link.queue == l.queue && w'.dropped == w.dropped
      && w'.phase.link.requests == (if Awaited(l) then l.requests - {l.inbox[0].peer} else l.requests)
      && w'.answered == w.answered + (if Awaited(l) then l.requests[l.inbox[0].peer] else [])
  {
  }

  /** A request leaves `requests` only together with its answer. */
  lemma HandlePlaces(w: World, r: Request)
    requires w.phase.HandleConnection? && w.phase.link.inbox != [] && FiledRight(w.phase.link)
    ensures Treats(w, StepConnection(w, Handle), r, None)
  {
    var l := w.phase.link;
    HandleMoves(w);
    if Awaited(l) {
      CountConcat(w.answered, l.requests[l.inbox[0].peer], r);
      AnswerPending(w, r);
    }
    hide FiledRight, StepConnection;
  }

  lemma AnswerPending(w: World, r: Request)
    requires w.phase.HandleConnection? && FiledRight(w.phase.link) && Awaited(w.phase.link)
    ensures Pending(w, r) == Pending(StepConnection(w, Handle), r)
              + multiset(w.phase.link.requests[w.phase.link.inbox[0].peer])[r]
  {
    var peer, requests := w.phase.link.inbox[0].peer, w.phase.link.requests;
    HandleMoves(w);
    hide StepConnection;
    if r.peer != peer { assert r !in requests[peer] && r !in multiset(requests[peer]); }
  }

  lemma ConnectionPlaces(w: World, e: Event, r: Request)
    requires (w.phase.HandleConnection? ==> FiledRight(w.phase.link)) && Places(w, r) <= 1
    ensures Treats(w, StepConnection(w, e), r, if e.Pop? then Cause(w, e, r) else None)
  {
    hide Treats, FiledRight;
    if w.phase.HandleConnection? && e.Pop? && w.phase.link.queue != [] {
      PopPlaces(w, e.cancelled, r);
    } else if w.phase.HandleConnection? && e.Handle? && w.phase.link.inbox != [] {
      HandlePlaces(w, r);
    } else {
      MessagesMoveNothing(w, e, r);
    }
  }

  lemma MessagesMoveNothing(w: World, e: Event, r: Request)
    requires w.phase.HandleConnection? && e.Pop? ==> w.phase.link.queue == []
    requires w.phase.HandleConnection? && e.Handle? ==> w.phase.link.inbox == []
    ensures Treats(w, StepConnection(w, e), r, None)
  {
  }

  lemma SubmitPlaces(w: World, peer: PeerId, r: Request)
    requires w.registryAlive && !w.phase.Stopped?
    ensures var w' := StepCaller(w, Submit(peer));
      && Queued(w', r) == Queued(w, r) + (if r == Request(peer, |w.submitted|) then 1 else 0)
      && Pending(w', r) == Pending(w, r)
  {
    CountSnoc(Queue(w.phase), Request(peer, |w.submitted|), r);
  }

  /** Only a submission places a request, one that is new. */
  lemma CallerPlaces(w: World, e: Event, r: Request)
    ensures var w' := StepCaller(w, e);
      && Places(w', r) == Places(w, r) + (if r.id == |w.submitted| && Known(w', r) then 1 else 0)
      && w'.answered == w.answered && w'.dropped == w.dropped
  {
    if e.Submit? && w.registryAlive && !w.phase.Stopped? {
      SubmitPlaces(w, e.peer, r);
    }
  }

  // ---------- Each step keeps the invariant ----------

  lemma PlacedOnceKept(w: World, w': World)
    requires PlacedOnce(w) && w'.submitted == w.submitted
    requires forall r: Request :: Places(w', r) == Places(w, r)
    ensures PlacedOnce(w')
  {
    hide Places;
    forall r: Request
      ensures Places(w', r) == (if Known(w', r) then 1 else 0)
    {
      assert Places(w, r) == (if Known(w, r) then 1 else 0);
    }
  }

  lemma HandlerKeeps(w: World, e: Event)
    requires Inv(w)
    ensures Inv(StepHandler(w, e))
  {
    forall r: Request ensures Places(StepHandler(w, e), r) == Places(w, r) {
      assert Places(w, r) == (if Known(w, r) then 1 else 0);
      HandlerPlaces(w, e, r);
    }
    PlacedOnceKept(w, StepHandler(w, e));
    HandlerKeepsRest(w, e);
    hide PlacedOnce, Places, LinkOk;
  }

  lemma HandlerKeepsRest(w: World, e: Event)
    requires Living(w) && QueueOk(w) && (w.phase.HandleConnection? ==> LinkOk(w, w.phase.link))
    ensures var w' := StepHandler(w, e);
      Living(w') && QueueOk(w') && (w'.phase.HandleConnection? ==> LinkOk(w', w'.phase.link))
  {
    hide HeldBy, Senders;
  }

  lemma SubmitKeeps(w: World, peer: PeerId)
    requires Inv(w) && w.registryAlive
    ensures Inv(StepCaller(w, Submit(peer)))
  {
    var w' := StepCaller(w, Submit(peer));
    assert Queue(w'.phase) == Queue(w.phase) + [Request(peer, |w.submitted|)];
    forall r: Request
      ensures Places(w', r) == (if Known(w', r) then 1 else 0)
    {
      CallerPlaces(w, Submit(peer), r);
      assert Places(w, r) == (if Known(w, r) then 1 else 0);
    }
    if w.phase.HandleConnection? { SameTrafficKeepsLink(w, w.phase.link, w'.phase.link); }
  }

  /** The queue is not part of what a link has under way. */
  lemma SameTrafficKeepsLink(w: World, l: Link, l': Link)
    requires LinkOk(w, l) && l' == l.(queue := l'.queue)
    ensures LinkOk(w, l')
  {
    forall p: PeerId ensures InFlight(l', p) == if p in l'.requests then 1 else 0 {
      assert InFlight(l, p) == if p in l.requests then 1 else 0;
    }
  }

  lemma CallerKeeps(w: World, e: Event)
    requires Inv(w)
    ensures Inv(StepCaller(w, e))
  {
    if e.Submit? && w.registryAlive {
      SubmitKeeps(w, e.peer);
    } else {
      forall r: Request ensures Places(StepCaller(w, e), r) == Places(w, r) {}
      PlacedOnceKept(w, StepCaller(w, e));
    }
  }

  lemma PopKeeps(w: World, cancelled: bool)
    requires Inv(w) && w.phase.HandleConnection? && w.phase.link.queue != []
    ensures Inv(StepConnection(w, Pop(cancelled)))
  {
    var w' := StepConnection(w, Pop(cancelled));
    forall r: Request ensures Places(w', r) == Places(w, r) {
      assert Places(w, r) == (if Known(w, r) then 1 else 0);
      PopPlaces(w, cancelled, r);
    }
    PlacedOnceKept(w, w');
    PopKeepsLink(w, cancelled);
    PopMoves(ClientOf(w), cancelled);
    hide PlacedOnce, LinkOk, Places, PopRequest;
    assert Queue(w'.phase) == Queue(w.phase)[1..];
    QueueTail(w, w');
  }

  lemma QueueTail(w: World, w': World)
    requires !w.phase.Stopped? && !w'.phase.Stopped? && QueueOk(w) && Queue(w.phase) != []
    requires Queue(w'.phase) == Queue(w.phase)[1..] && w'.submitted == w.submitted
    ensures QueueOk(w')
  {
  }

  lemma PopKeepsLink(w: World, cancelled: bool)
    requires w.phase.HandleConnection? && w.phase.link.queue != [] && LinkOk(w, w.phase.link)
    ensures var w' := StepConnection(w, Pop(cancelled)); LinkOk(w', w'.phase.link)
  {
    PopKeepsMatching(ClientOf(w), cancelled);
    PopMoves(ClientOf(w), cancelled);
    PopFiles(w.phase.link, PopRequest(ClientOf(w), cancelled).link, cancelled);
    assert Told(PopRequest(ClientOf(w), cancelled).link, w.verdicts) by { hide PopRequest; }
    hide Matching, Waiting, FiledRight, Told, PopRequest;
  }

  lemma PopFiles(l: Link, l': Link, cancelled: bool)
    requires l.queue != [] && FiledRight(l) && Joined(l, l', cancelled)
    ensures FiledRight(l')
  {
  }

  lemma HandleKeeps(w: World)
    requires Inv(w) && w.phase.HandleConnection? && w.phase.link.inbox != []
    ensures Inv(StepConnection(w, Handle))
  {
    var w' := StepConnection(w, Handle);
    forall r: Request ensures Places(w', r) == Places(w, r) {
      HandlePlaces(w, r);
      hide Places, StepConnection;
    }
    PlacedOnceKept(w, w') by { hide Places, StepConnection; }
    HandleKeepsLink(w);
    HandleMoves(w);
    assert |w'.results| == |w'.answered|;
    hide PlacedOnce, LinkOk, Places;
  }

  lemma HandleKeepsLink(w: World)
    requires w.phase.HandleConnection? && w.phase.link.inbox != [] && LinkOk(w, w.phase.link)
    ensures var w' := StepConnection(w, Handle); LinkOk(w', w'.phase.link)
  {
    HandleKeepsMatching(ClientOf(w));
    hide Matching, Waiting;
  }

  lemma ServeKeeps(w: World, has: bool)
    requires Inv(w) && w.phase.HandleConnection? && w.phase.link.out != []
    ensures Inv(StepConnection(w, Serve(has)))
  {
    var w' := StepConnection(w, Serve(has));
    forall r: Request ensures Places(w', r) == Places(w, r) { MessagesMoveNothing(w, Serve(has), r); }
    PlacedOnceKept(w, w');
    ServeKeepsLink(w, has);
    hide PlacedOnce, LinkOk, Places;
  }

  lemma ServeKeepsLink(w: World, has: bool)
    requires w.phase.HandleConnection? && w.phase.link.out != [] && LinkOk(w, w.phase.link)
    ensures var w' := StepConnection(w, Serve(has)); LinkOk(w', w'.phase.link)
  {
    ServeKeepsMatching(w.phase.link, has);
    ServeTells(w.phase.link, has, w.verdicts);
    hide Matching, Told;
  }

  /** No older answer about the same peer is under way when the server answers, so each is its last word. */
  lemma ServeTells(l: Link, has: bool, verdicts: map<PeerId, bool>)
    requires l.out != [] && Told(l, verdicts) && Matching(l)
    ensures Told(ServeMessage(l, has), if l.out[0].Find? then verdicts[l.out[0].peer := has] else verdicts)
  {
    var l' := ServeMessage(l, has);
    if l.out[0].Find? { NoAnswerBesideFind(l, l.out[0].peer); }
    forall i | 0 <= i < |l'.inbox|
      ensures i < |l.inbox| ==> l'.inbox[i] == l.inbox[i]
    {
    }
  }

  lemma NoAnswerBesideFind(l: Link, p: PeerId)
    requires Matching(l) && Find(p) in l.out
    ensures Found(p) !in l.inbox && NotFound(p) !in l.inbox
  {
    assert InFlight(l, p) <= 1;
    assert Find(p) in multiset(l.out);
    assert Found(p) in l.inbox ==> Found(p) in multiset(l.inbox);
    assert NotFound(p) in l.inbox ==> NotFound(p) in multiset(l.inbox);
  }

  lemma PingKeeps(w: World)
    requires Inv(w) && w.phase.HandleConnection?
    ensures Inv(StepConnection(w, SendPing))
  {
    var l := w.phase.link;
    var w' := StepConnection(w, SendPing);
    forall p: PeerId ensures InFlight(w'.phase.link, p) == if p in l.requests then 1 else 0 {
      assert InFlight(l, p) == if p in l.requests then 1 else 0;
    }
    forall r: Request ensures Places(w', r) == Places(w, r) { MessagesMoveNothing(w, SendPing, r); }
    PlacedOnceKept(w, w');
  }

  lemma ConnectionKeeps(w: World, e: Event)
    requires Inv(w)
    ensures Inv(StepConnection(w, e))
  {
    hide Inv;
    if w.phase.HandleConnection? {
      match e
      case Pop(cancelled) => if w.phase.link.queue != [] { PopKeeps(w, cancelled); }
      case Handle => if w.phase.link.inbox != [] { HandleKeeps(w); }
      case Serve(has) => if w.phase.link.out != [] { ServeKeeps(w, has); }
      case SendPing => PingKeeps(w);
      case _ =>
    }
  }

  lemma StepKeeps(w: World, e: Event)
    requires Inv(w)
    ensures Inv(Step(w, e))
  {
    hide Inv;
    HandlerKeeps(w, e);
    ConnectionKeeps(StepHandler(w, e), e);
    CallerKeeps(StepConnection(StepHandler(w, e), e), e);
  }

  lemma {:induction false} RunKeeps(w: World, events: seq<Event>)
    requires Inv(w)
    ensures Inv(Run(w, events))
    decreases |events|
  {
    hide Inv;
    if events != [] {
      StepKeeps(w, events[0]);
      RunKeeps(Step(w, events[0]), events[1..]);
    }
  }

  lemma Reached(events: seq<Event>)
    ensures Inv(Run(START, events))
  {
    RunKeeps(START, events);
  }

  lemma {:induction false} RunSnoc(w: World, events: seq<Event>, e: Event)
    ensures Run(w, events + [e]) == Step(Run(w, events), e)
    decreases |events|
  {
    if events == [] {
      assert [e][1..] == [] && events + [e] == [e];
    } else {
      assert (events + [e])[0] == events[0] && (events + [e])[1..] == events[1..] + [e];
      RunSnoc(Step(w, events[0]), events[1..], e);
    }
  }

  // ---------- Main results: one message, one place ----------

  /**
   On every connection of every run: for each peer exactly one Find or answer is under way if someone waits
   for it, and none otherwise; nobody waits for an empty list of senders.
   */
  lemma OneMessagePerWantedPeer(events: seq<Event>, p: PeerId)
    requires Run(START, events).phase.HandleConnection?
    ensures var l := Run(START, events).phase.link;
      && InFlight(l, p) == (if p in l.requests then 1 else 0)
      && (p in l.requests ==> l.requests[p] != [])
  {
    Reached(events);
  }

  /**
   Across all reconnects every submitted request is in exactly one place, there once: queued, waiting,
   answered or given up. Queued requests keep the order of their submission.
   */
  lemma RequestsAreInOnePlace(events: seq<Event>, r: Request)
    ensures var w := Run(START, events);
      && Queued(w, r) + Pending(w, r) + Answered(w, r) + Dropped(w, r) == (if Known(w, r) then 1 else 0)
      && (!w.phase.Stopped? ==> InOrder(Queue(w.phase)))
  {
    Reached(events);
    var w := Run(START, events);
    assert Places(w, r) == (if Known(w, r) then 1 else 0);
  }

  lemma KnownStays(w: World, e: Event, r: Request)
    requires Known(w, r)
    ensures Known(Step(w, e), r) && |StepConnection(StepHandler(w, e), e).submitted| == |w.submitted|
    ensures r.id < |w.submitted|
  {
  }

  lemma TreatsTwice(w: World, w1: World, w2: World, r: Request, c1: Option<Loss>, c2: Option<Loss>)
    requires Treats(w, w1, r, c1) && Treats(w1, w2, r, c2) && (c1.None? || c2.None?)
    ensures Treats(w, w2, r, if c1.Some? then c1 else c2)
  {
    hide Places, Answered;
  }

  /** A known request is given up in a step exactly for the cause named; it is never placed anew. */
  lemma StepTreats(w: World, e: Event, r: Request)
    requires Inv(w) && Known(w, r)
    ensures Known(Step(w, e), r) && Treats(w, Step(w, e), r, Cause(w, e, r))
  {
    assert Places(w, r) <= 1;
    var w1 := StepHandler(w, e);
    var w2 := StepConnection(w1, e);
    HandlerKeeps(w, e);
    HandlerPlaces(w, e, r);
    ConnectionPlaces(w1, e, r);
    KnownStays(w, e, r);
    CallerPlaces(w2, e, r);
    assert Treats(w2, StepCaller(w2, e), r, None);
    assert e.Pop? ==> w1 == w;
    hide Inv, Known, Places, Cause, Treats, StepHandler, StepConnection, StepCaller;
    TreatsTwice(w, w1, w2, r, if e.Pop? then None else Cause(w, e, r), if e.Pop? then Cause(w1, e, r) else None);
    TreatsTwice(w, w2, StepCaller(w2, e), r, Cause(w, e, r), None);
  }

  /** From one moment of a run to a later one an answer stays, and so does a loss, for the reason it had. */
  lemma {:induction false} RequestsOnlyMoveForward(w: World, events: seq<Event>, r: Request)
    requires Inv(w) && Known(w, r)
    ensures var w' := Run(w, events);
      && Known(w', r) && Answered(w', r) >= Answered(w, r)
      && (r in w.dropped ==> r in w'.dropped && w'.dropped[r] == w.dropped[r])
    decreases |events|
  {
    if events != [] {
      StepTreats(w, events[0], r);
      StepKeeps(w, events[0]);
      hide Inv, Known, Places, Cause, Answered, Step;
      RequestsOnlyMoveForward(Step(w, events[0]), events[1..], r);
    }
  }

  /** A request that was given up is never answered; one that was answered is never given up or queued again. */
  lemma DroppedIsFinal(events: seq<Event>, more: seq<Event>, r: Request)
    requires Known(Run(START, events), r)
    ensures var w, w' := Run(START, events), Run(Run(START, events), more);
      && (r in w.dropped ==> Answered(w', r) == 0 && Queued(w', r) == 0 && Pending(w', r) == 0)
      && (r in w.answered ==> Answered(w', r) == 1 && Queued(w', r) == 0 && Pending(w', r) == 0 && r !in w'.dropped)
  {
    Reached(events);
    var w := Run(START, events);
    RequestsOnlyMoveForward(w, more, r);
    RunKeeps(w, more);
    var w' := Run(w, more);
    assert Places(w', r) == (if Known(w', r) then 1 else 0);
    assert r in w.answered ==> r in multiset(w.answered);
  }

  // ---------- Main results: nothing is lost without a cause ----------

  /** In event k of the run the request was given up, for the cause that is on record. */
  ghost predicate LostAt(events: seq<Event>, k: nat, r: Request, why: Loss) {
    k < |events| && Cause(Run(START, events[..k]), events[k], r) == Some(why)
  }

  lemma NewIsPlaced(w: World, e: Event, r: Request)
    requires Inv(w) && !Known(w, r)
    ensures r !in Step(w, e).dropped
  {
    assert Places(w, r) == (if Known(w, r) then 1 else 0) == 0;
    var w1 := StepHandler(w, e);
    HandlerKeeps(w, e);
    HandlerPlaces(w, e, r);
    ConnectionPlaces(w1, e, r);
    CallerPlaces(StepConnection(w1, e), e, r);
    hide Inv, Known, Cause, Queued, Pending, Answered, StepHandler, StepConnection, StepCaller;
  }

  /** Every request given up in a run was cancelled, or lost with its connection, or with the handler. */
  lemma {:induction false} LossHasItsCause(events: seq<Event>, r: Request) returns (k: nat)
    requires r in Run(START, events).dropped
    ensures LostAt(events, k, r, Run(START, events).dropped[r])
    decreases |events|
  {
    if events == [] { assert false; }
    var n := |events| - 1;
    var front, e := events[..n], events[n];
    assert events == front + [e];
    RunSnoc(START, front, e);
    var w := Run(START, front);
    Reached(front);
    if r in w.dropped {
      k := LossHasItsCause(front, r);
      assert front[..k] == events[..k] && front[k] == events[k];
      assert Places(w, r) == (if Known(w, r) then 1 else 0);
      StepTreats(w, e, r);
    } else {
      if !Known(w, r) { NewIsPlaced(w, e, r); }
      StepTreats(w, e, r);
      k := n;
    }
  }

  predicate Harmless(e: Event) { e != Pop(true) && e != ConnectionEnds && e != DropRegistry }

  /**
   While no caller gives up, the connection lasts and the registry exists, no request is lost: each is
   queued, waiting or answered.
   */
  lemma {:induction false} NothingIsLost(events: seq<Event>, r: Request)
    requires forall i :: 0 <= i < |events| ==> Harmless(events[i])
    ensures var w := Run(START, events);
      Known(w, r) ==> Queued(w, r) + Pending(w, r) + Answered(w, r) == 1
  {
    RequestsAreInOnePlace(events, r);
    if r in Run(START, events).dropped {
      var k := LossHasItsCause(events, r);
      StaysAlive(START, events[..k]);
    }
  }

  lemma {:induction false} StaysAlive(w: World, events: seq<Event>)
    requires w.registryAlive && forall i :: 0 <= i < |events| ==> Harmless(events[i])
    ensures Run(w, events).registryAlive
    decreases |events|
  {
    if events != [] {
      assert Harmless(events[0]);
      AliveStep(w, events[0]);
      StaysAlive(Step(w, events[0]), events[1..]);
    }
  }

  lemma AliveStep(w: World, e: Event)
    requires w.registryAlive && Harmless(e)
    ensures Step(w, e).registryAlive
  {
  }

  /** Connecting, failing to connect and losing the connection hand the queue over as it is. */
  lemma ReconnectKeepsQueue(w: World, e: Event)
    requires !StepHandler(w, e).phase.Stopped?
    ensures !w.phase.Stopped? && Queue(StepHandler(w, e).phase) == Queue(w.phase)
  {
  }

  // ---------- Main results: true answers ----------

  /** A step adds answers behind the ones there are, and each new one is true on the current connection. */
  predicate AddsTruth(w: World, w': World) {
    && |w.results| == |w.answered| && |w'.results| == |w'.answered|
    && w.answered <= w'.answered && w.results <= w'.results
    && forall i :: |w.answered| <= i < |w'.answered| ==>
         && w.phase.HandleConnection?
         && ResultOk(w.phase.link.provider, w.verdicts, w'.answered[i], w'.results[i])
  }

  lemma PopTellsTruth(w: World, cancelled: bool)
    requires w.phase.HandleConnection? && w.phase.link.queue != [] && |w.results| == |w.answered|
    ensures AddsTruth(w, StepConnection(w, Pop(cancelled)))
  {
  }

  lemma HandleTellsTruth(w: World)
    requires w.phase.HandleConnection? && w.phase.link.inbox != []
    requires FiledRight(w.phase.link) && Told(w.phase.link, w.verdicts) && |w.results| == |w.answered|
    ensures AddsTruth(w, StepConnection(w, Handle))
  {
    var l := w.phase.link;
    var w' := StepConnection(w, Handle);
    forall i | |w.answered| <= i < |w'.answered|
      ensures ResultOk(l.provider, w.verdicts, w'.answered[i], w'.results[i])
    {
      assert w'.answered[i] == l.requests[l.inbox[0].peer][i - |w.answered|];
    }
  }

  lemma StepTellsTruth(w: World, e: Event)
    requires Inv(w)
    ensures AddsTruth(w, Step(w, e))
  {
    if w.phase.HandleConnection? && e.Pop? && w.phase.link.queue != [] {
      PopTellsTruth(w, e.cancelled);
    } else if w.phase.HandleConnection? && e.Handle? && w.phase.link.inbox != [] {
      HandleTellsTruth(w);
    } else {
      OthersAnswerNothing(w, e);
    }
    hide Inv, AddsTruth;
  }

  lemma OthersAnswerNothing(w: World, e: Event)
    requires w.phase.HandleConnection? && e.Pop? ==> w.phase.link.queue == []
    requires w.phase.HandleConnection? && e.Handle? ==> w.phase.link.inbox == []
    ensures Step(w, e).answered == w.answered && Step(w, e).results == w.results
  {
  }

  /** Answer i of the run was given in event k, on a connection on which it was true. */
  ghost predicate TrueAt(events: seq<Event>, k: nat, i: nat, r: Request, result: Result) {
    k < |events| && GivenBetween(Run(START, events[..k]), Run(START, events[..k + 1]), i, r, result)
  }

  predicate GivenBetween(w: World, w': World, i: nat, r: Request, result: Result) {
    && |w.answered| <= i < |w'.answered| && |w'.results| == |w'.answered|
    && w'.answered[i] == r && w'.results[i] == result
    && w.phase.HandleConnection? && ResultOk(w.phase.link.provider, w.verdicts, r, result)
  }

  lemma TrueEarlier(front: seq<Event>, e: Event, k: nat, i: nat, r: Request, result: Result)
    requires TrueAt(front, k, i, r, result)
    ensures TrueAt(front + [e], k, i, r, result)
  {
    hide Run, GivenBetween;
    assert (front + [e])[..k] == front[..k] && (front + [e])[..k + 1] == front[..k + 1];
  }

  /**
   Every result that a caller receives was true when it was given: it comes with the handle of the
   connection that was open at that moment, and on that connection its provider last answered just that about
   the peer the caller asked for.
   */
  lemma {:induction false} ResultsAreTrue(events: seq<Event>, i: nat) returns (k: nat)
    requires i < |Run(START, events).answered|
    ensures var w := Run(START, events);
      |w.results| == |w.answered| && Known(w, w.answered[i]) && TrueAt(events, k, i, w.answered[i], w.results[i])
    decreases |events|
  {
    Reached(events);
    AnsweredIsKnown(Run(START, events), i);
    if events == [] { assert false; }
    var n := |events| - 1;
    var front, e := events[..n], events[n];
    assert events == front + [e] && events[..n + 1] == events;
    RunSnoc(START, front, e);
    Reached(front);
    StepTellsTruth(Run(START, front), e);
    hide Inv, Run, Step, Known, ResultOk;
    if i < |Run(START, front).answered| {
      k := ResultsAreTrue(front, i);
      TrueEarlier(front, e, k, i, Run(START, front).answered[i], Run(START, front).results[i]);
    } else {
      k := n;
    }
  }

  lemma AnsweredIsKnown(w: World, i: nat)
    requires Inv(w) && i < |w.answered|
    ensures Known(w, w.answered[i]) && |w.results| == |w.answered|
  {
    var r := w.answered[i];
    assert r in multiset(w.answered);
    assert Places(w, r) == (if Known(w, r) then 1 else 0);
  }

  /**
   While the registry exists the handler does not end, so a submitted request always finds its receiver: it is
   numbered and comes last in the queue, in whatever state the handler is.
   */
  lemma HandlerOutlivesRegistry(events: seq<Event>, peer: PeerId)
    ensures var w := Run(START, events);
      && (w.registryAlive ==> !w.phase.Stopped?) && !w.sendFailed
      && (w.registryAlive ==>
            var w' := Run(START, events + [Submit(peer)]);
            && w'.submitted == w.submitted + [peer]
            && !w'.phase.Stopped? && Queue(w'.phase) == Queue(w.phase) + [Request(peer, |w.submitted|)])
  {
    Reached(events);
    RunSnoc(START, events, Submit(peer));
    hide Run, PlacedOnce, LinkOk, QueueOk;
  }

  // ---------- Main results: every request can still be answered ----------

  lemma {:induction false} RunAppend(w: World, events: seq<Event>, more: seq<Event>)
    ensures Run(w, events + more) == Run(Run(w, events), more)
    decreases |events|
  {
    if events == [] {
      assert events + more == more;
    } else {
      assert (events + more)[0] == events[0] && (events + more)[1..] == events[1..] + more;
      RunAppend(Step(w, events[0]), events[1..], more);
    }
  }

  lemma RunTwo(w: World, e: Event, f: Event)
    ensures Run(w, [e]) == Step(w, e) && Run(w, [e, f]) == Step(Step(w, e), f)
  {
    hide Step;
    assert [e][1..] == [] && [e, f][1..] == [f] && [f][1..] == [];
    assert Run(Step(w, e), [f]) == Step(Step(w, e), f);
  }

  /** Nothing was submitted or given up in between. */
  predicate SameRequests(w: World, w': World) { w'.submitted == w.submitted && w'.dropped == w.dropped }

  /** From every state of a living handler some provider can be connected, without giving up a request. */
  lemma Connects(w: World, provider: PeerId) returns (events: seq<Event>)
    requires w.registryAlive && !w.phase.Stopped?
    ensures Run(w, events).phase.HandleConnection? && SameRequests(w, Run(w, events))
  {
    RunTwo(w, AddressReady, Connected(provider));
    RunTwo(w, Connected(provider), Handle);
    match w.phase
    case RequestNextPeerAddr(_) =>
      hide Run;
      events := [AddressReady, Connected(provider)];
    case ConnectToPeer(_) =>
      hide Run;
      events := [Connected(provider)];
    case HandleConnection(_) => events := [];
  }

  /** The queue, the messages to the server and the messages from it can be emptied one after the other. */
  lemma QueueEmpties(w: World) returns (events: seq<Event>)
    requires w.phase.HandleConnection?
    ensures var w' := Run(w, events);
      w'.phase.HandleConnection? && SameRequests(w, w') && w'.phase.link.queue == []
  {
    events := PopAllIsARun(w, {});
    PopAllEmpties(ClientOf(w), {});
    hide Run, PopAll, AnswersProvider, LetsWait, SendsFinds;
    assert PopAll(ClientOf(w), {}).dropped == w.dropped;
  }

  lemma OutEmpties(w: World) returns (events: seq<Event>)
    requires w.phase.HandleConnection? && w.phase.link.queue == []
    ensures var w' := Run(w, events);
      w'.phase.HandleConnection? && SameRequests(w, w') && w'.phase.link.queue == [] && w'.phase.link.out == []
  {
    events := ServeAllIsARun(w, {});
    hide Run;
  }

  lemma InboxEmpties(w: World) returns (events: seq<Event>)
    requires Inv(w) && w.phase.HandleConnection? && w.phase.link.queue == [] && w.phase.link.out == []
    ensures var w' := Run(w, events);
      && w'.phase.HandleConnection? && SameRequests(w, w')
      && w'.phase.link.queue == [] && w'.phase.link.out == [] && w'.phase.link.inbox == []
  {
    events := HandleAllIsARun(w);
    HandleAllHandles(ClientOf(w));
    hide Run, HandleAll, StopsWaiting, AnswersOnce, RepeatsAnswers;
  }

  lemma Settles(w: World) returns (events: seq<Event>)
    requires Inv(w) && w.phase.HandleConnection?
    ensures var w' := Run(w, events);
      && w'.phase.HandleConnection? && SameRequests(w, w')
      && w'.phase.link.queue == [] && w'.phase.link.out == [] && w'.phase.link.inbox == []
  {
    hide Run, Inv;
    var e1 := QueueEmpties(w);
    var e2 := OutEmpties(Run(w, e1));
    RunAppend(w, e1, e2);
    RunKeeps(w, e1 + e2);
    var e3 := InboxEmpties(Run(w, e1 + e2));
    RunAppend(w, e1 + e2, e3);
    events := (e1 + e2) + e3;
  }

  /** With nothing under way nobody waits, so what was submitted and not given up is answered. */
  lemma SettledIsAnswered(w: World, r: Request)
    requires Inv(w) && Known(w, r) && r !in w.dropped && w.phase.HandleConnection?
    requires w.phase.link.queue == [] && w.phase.link.out == [] && w.phase.link.inbox == []
    ensures r in w.answered
  {
    var l := w.phase.link;
    assert InFlight(l, r.peer) == 0;
    assert r.peer !in l.requests;
    assert Places(w, r) == 1;
    assert r in multiset(w.answered);
  }

  /**
   In every run, as long as the registry exists, a request that is queued or waits can still be answered: some
   continuation answers it.
   */
  lemma AnswerStaysPossible(events: seq<Event>, r: Request) returns (more: seq<Event>)
    requires var w := Run(START, events); w.registryAlive && Queued(w, r) + Pending(w, r) > 0
    ensures r in Run(START, events + more).answered
  {
    Reached(events);
    var w := Run(START, events);
    HeldIsKnown(w, r);
    hide Run, Inv, Queued, Pending;
    var e1 := Connects(w, 0);
    RunKeeps(w, e1);
    var w1 := Run(w, e1);
    var e2 := Settles(w1);
    RunKeeps(w1, e2);
    SettledIsAnswered(Run(w1, e2), r);
    more := e1 + e2;
    RunAppend(w, e1, e2);
    RunAppend(START, events, more);
  }

  lemma HeldIsKnown(w: World, r: Request)
    requires Inv(w) && Queued(w, r) + Pending(w, r) > 0
    ensures Known(w, r) && r !in w.dropped && !w.phase.Stopped?
  {
    assert Places(w, r) == (if Known(w, r) then 1 else 0);
  }
}
