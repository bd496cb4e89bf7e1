/**
 Looking up peers at a registry provider (src/registries/remote.rs): the client side that coalesces
 requests (`OutgoingStream`), the server side (`IncomingStream`), and the handler that reconnects for ever
 and carries the request queue through all of its states (`ConnectionHandler`).
 */
module RemoteRegistry {
  import opened Common
  import opened Messages

  /** A find request: the peer asked for, and the number that identifies its result sender. */
  datatype Request = Request(peer: PeerId, id: nat)

  /** `via` is the provider whose connection handle comes with the result. */
  datatype Result = FoundWithHandle(via: PeerId) | FoundRemote(via: PeerId) | PeerNotFound

  /** Why a request is given up without an answer. */
  datatype Loss = Cancelled | ConnectionLost | HandlerStopped

  // ---------- The client on one connection ----------

  /**
   A connection to `provider`. `queue` is the receiver of find requests, `requests` the senders waiting for
   an answer, `out` and `inbox` the messages under way to and from the server.
   */
  datatype Link = Link(
    provider: PeerId, queue: seq<Request>, requests: map<PeerId, seq<Request>>,
    out: seq<RegistryMessage>, inbox: seq<RegistryMessage>)

  /** The link together with all requests ever answered, their results, and the requests given up. */
  datatype Client = Client(link: Link, answered: seq<Request>, results: seq<Result>, dropped: map<Request, Loss>)

  /** One round of `poll_find_peer_request`; a request may have been cancelled by its caller. */
  function PopRequest(c: Client, cancelled: bool): Client
    requires c.link.queue != []
  {
    var req := c.link.queue[0];
    var link := c.link.(queue := c.link.queue[1..]);
    if cancelled then c.(link := link, dropped := c.dropped[req := Cancelled])
    else if req.peer == link.provider then
      c.(link := link, answered := c.answered + [req], results := c.results + [FoundWithHandle(link.provider)])
    else if req.peer in link.requests then
      c.(link := link.(requests := link.requests[req.peer := link.requests[req.peer] + [req]]))
    else
      c.(link := link.(requests := link.requests[req.peer := [req]], out := link.out + [Find(req.peer)]))
  }

  function Repeat(r: Result, n: nat): (rs: seq<Result>)
    ensures |rs| == n && forall i :: 0 <= i < n ==> rs[i] == r
  {
    if n == 0 then [] else Repeat(r, n - 1) + [r]
  }

  /** All senders waiting for `peer` receive the result. */
  function AnswerAll(c: Client, peer: PeerId, r: Result): Client {
    if peer !in c.link.requests then c else
    var batch := c.link.requests[peer];
    c.(link := c.link.(requests := c.link.requests - {peer}),
       answered := c.answered + batch, results := c.results + Repeat(r, |batch|))
  }

  /** One round of the message loop in `OutgoingStream::poll`. */
  function HandleMessage(c: Client): Client
    requires c.link.inbox != []
  {
    var c1 := c.(link := c.link.(inbox := c.link.inbox[1..]));
    match c.link.inbox[0]
    case Found(peer) => AnswerAll(c1, peer, FoundRemote(c.link.provider))
    case NotFound(peer) => AnswerAll(c1, peer, PeerNotFound)
    case _ => c1
  }

  /** What the server sends back; `has` is what its registry says. */
  function Reply(m: RegistryMessage, has: bool): seq<RegistryMessage> {
    match m
    case Find(peer) => [if has then Found(peer) else NotFound(peer)]
    case Ping => [Pong]
    case _ => []
  }

  /** One round of the loop in the server's `IncomingStream::poll`. */
  function ServeMessage(link: Link, has: bool): Link
    requires link.out != []
  {
    link.(out := link.out[1..], inbox := link.inbox + Reply(link.out[0], has))
  }

  // ---------- The client as an object ----------

  /** Empties the request queue; `cancelled` are the requests whose callers have gone. */
  function PopAll(c: Client, cancelled: set<Request>): Client
    decreases |c.link.queue|
  {
    if c.link.queue == [] then c else PopAll(PopRequest(c, c.link.queue[0] in cancelled), cancelled)
  }

  function HandleAll(c: Client): Client
    decreases |c.link.inbox|
  {
    if c.link.inbox == [] then c else HandleAll(HandleMessage(c))
  }

  // ---------- What emptying the queue does ----------

  /** The requests that wait for p. */
  function Batch(l: Link, p: PeerId): seq<Request> { if p in l.requests then l.requests[p] else [] }

  /** Senders waiting under p asked for p. */
  predicate FiledRight(l: Link) {
    forall p, i :: p in l.requests && 0 <= i < |l.requests[p]| ==> l.requests[p][i].peer == p
  }

  /** The requests for p whose callers are still there, in order. */
  function LiveFor(q: seq<Request>, p: PeerId, cancelled: set<Request>): (live: seq<Request>)
    ensures forall r :: r in live <==> r in q && r.peer == p && r !in cancelled
  {
    if q == [] then [] else
    (if q[0].peer == p && q[0] !in cancelled then [q[0]] else []) + LiveFor(q[1..], p, cancelled)
  }

  /** Exactly the cancelled requests are given up. */
  ghost predicate GivesUpCancelled(c: Client, c': Client, cancelled: set<Request>) {
    var q := c.link.queue;
    && (forall r :: r in c'.dropped <==> r in c.dropped || (r in q && r in cancelled))
    && (forall r :: r in c'.dropped ==>
          c'.dropped[r] == if r in q && r in cancelled then Cancelled else c.dropped[r])
  }

  /** Exactly the live requests for the provider itself are answered, in order and with its handle. */
  predicate AnswersProvider(c: Client, c': Client, cancelled: set<Request>) {
    var live := LiveFor(c.link.queue, c.link.provider, cancelled);
    c'.answered == c.answered + live && c'.results == c.results + Repeat(FoundWithHandle(c.link.provider), |live|)
  }

  /** All other live requests wait behind those that waited before, in order. */
  ghost predicate LetsWait(c: Client, c': Client, cancelled: set<Request>) {
    var l, l', q := c.link, c'.link, c.link.queue;
    forall p: PeerId ::
      var more := if p == l.provider then [] else LiveFor(q, p, cancelled);
      Batch(l', p) == Batch(l, p) + more && (p in l'.requests <==> p in l.requests || more != [])
  }

  /** One `Find` is sent for each peer that is newly waited for, and nothing else. */
  ghost predicate SendsFinds(l: Link, l': Link) {
    && l.out <= l'.out
    && (forall m: RegistryMessage :: multiset(l'.out[|l.out|..])[m] ==
          if m.Find? && m.peer in l'.requests && m.peer !in l.requests then 1 else 0)
  }

  /** The queue of `c` has been emptied. */
  ghost predicate Emptied(c: Client, c': Client, cancelled: set<Request>) {
    && c'.link.queue == [] && c'.link.provider == c.link.provider && c'.link.inbox == c.link.inbox
    && GivesUpCancelled(c, c', cancelled) && AnswersProvider(c, c', cancelled)
    && LetsWait(c, c', cancelled) && SendsFinds(c.link, c'.link)
  }

  lemma NothingEmptied(c: Client, cancelled: set<Request>)
    requires c.link.queue == []
    ensures Emptied(c, c, cancelled)
  {
    assert c.link.out[|c.link.out|..] == [];
    assert c.answered + [] == c.answered && c.results + [] == c.results;
    forall p: PeerId ensures Batch(c.link, p) + [] == Batch(c.link, p) {}
  }

  lemma RepeatCons(r: Result, n: nat)
    ensures [r] + Repeat(r, n) == Repeat(r, n + 1)
  {
  }

  /** The four parts, with one request more at the front of the queue. */
  lemma GivesUpOneMore(c: Client, c': Client, cancelled: set<Request>)
    requires c.link.queue != []
    requires GivesUpCancelled(PopRequest(c, c.link.queue[0] in cancelled), c', cancelled)
    ensures GivesUpCancelled(c, c', cancelled)
  {
    var q := c.link.queue;
    assert q == [q[0]] + q[1..];
    assert PopRequest(c, q[0] in cancelled).dropped == if q[0] in cancelled then c.dropped[q[0] := Cancelled] else c.dropped;
    assert PopRequest(c, q[0] in cancelled).link.queue == q[1..];
    hide PopRequest;
  }

  lemma AnswersOneMore(c: Client, c': Client, cancelled: set<Request>)
    requires c.link.queue != []
    requires AnswersProvider(PopRequest(c, c.link.queue[0] in cancelled), c', cancelled)
    ensures AnswersProvider(c, c', cancelled)
  {
    var l, q := c.link, c.link.queue;
    var rest, handle := LiveFor(q[1..], l.provider, cancelled), FoundWithHandle(l.provider);
    var c1 := PopRequest(c, q[0] in cancelled);
    assert c1.link.queue == q[1..] && c1.link.provider == l.provider;
    assert q[0] in cancelled || q[0].peer != l.provider ==> c1.answered == c.answered && c1.results == c.results;
    assert q[0] !in cancelled && q[0].peer == l.provider ==>
      c1.answered == c.answered + [q[0]] && c1.results == c.results + [handle];
    hide PopRequest;
    if q[0].peer == l.provider && q[0] !in cancelled {
      Assoc(c.answered, [q[0]], rest);
      Assoc(c.results, [handle], Repeat(handle, |rest|));
      RepeatCons(handle, |rest|);
    }
  }

  lemma WaitsOneMore(c: Client, c': Client, cancelled: set<Request>)
    requires c.link.queue != []
    requires LetsWait(PopRequest(c, c.link.queue[0] in cancelled), c', cancelled)
    ensures LetsWait(c, c', cancelled)
  {
    var l, l', q := c.link, c'.link, c.link.queue;
    var c1 := PopRequest(c, q[0] in cancelled);
    forall p: PeerId
      ensures var more := if p == l.provider then [] else LiveFor(q, p, cancelled);
        Batch(l', p) == Batch(l, p) + more && (p in l'.requests <==> p in l.requests || more != [])
    {
      PopBatch(c, q[0] in cancelled, p);
      var front := if p != l.provider && q[0].peer == p && q[0] !in cancelled then [q[0]] else [];
      var rest := if p == l.provider then [] else LiveFor(q[1..], p, cancelled);
      assert Batch(l', p) == Batch(c1.link, p) + rest;
      Assoc(Batch(l, p), front, rest);
      assert (if p == l.provider then [] else LiveFor(q, p, cancelled)) == front + rest;
      hide PopRequest, LiveFor, Batch;
    }
  }

  lemma PopBatch(c: Client, cancelled: bool, p: PeerId)
    requires c.link.queue != []
    ensures var l, l1 := c.link, PopRequest(c, cancelled).link;
      var joins := !cancelled && p != l.provider && l.queue[0].peer == p;
      && l1.queue == l.queue[1..] && l1.provider == l.provider
      && Batch(l1, p) == Batch(l, p) + (if joins then [l.queue[0]] else [])
      && (p in l1.requests <==> p in l.requests || joins)
  {
  }

  lemma FindsOneMore(c: Client, c': Client, cancelled: bool)
    requires c.link.queue != [] && SendsFinds(PopRequest(c, cancelled).link, c'.link)
    requires forall p :: p in PopRequest(c, cancelled).link.requests ==> p in c'.link.requests
    ensures SendsFinds(c.link, c'.link)
  {
    var l, l' := c.link, c'.link;
    var l1 := PopRequest(c, cancelled).link;
    PopSends(c, cancelled);
    hide PopRequest;
    var sent := l1.out[|l.out|..];
    assert l1.out == l.out + sent;
    assert l'.out[|l.out|..] == sent + l'.out[|l1.out|..];
  }

  lemma PopSends(c: Client, cancelled: bool)
    requires c.link.queue != []
    ensures var l, l1, p := c.link, PopRequest(c, cancelled).link, c.link.queue[0].peer;
      && l.out <= l1.out
      && (l1.out[|l.out|..] == if p in l1.requests && p !in l.requests then [Find(p)] else [])
      && (forall q :: q != p ==> (q in l1.requests <==> q in l.requests))
      && (p in l.requests ==> p in l1.requests)
  {
  }

  lemma EmptiedOneMore(c: Client, c': Client, cancelled: set<Request>)
    requires c.link.queue != []
    requires Emptied(PopRequest(c, c.link.queue[0] in cancelled), c', cancelled)
    ensures Emptied(c, c', cancelled)
  {
    var dead := c.link.queue[0] in cancelled;
    GivesUpOneMore(c, c', cancelled);
    AnswersOneMore(c, c', cancelled);
    WaitsOneMore(c, c', cancelled);
    forall p | p in PopRequest(c, dead).link.requests ensures p in c'.link.requests {}
    FindsOneMore(c, c', dead);
    assert PopRequest(c, dead).link.provider == c.link.provider && PopRequest(c, dead).link.inbox == c.link.inbox;
    hide GivesUpCancelled, AnswersProvider, LetsWait, SendsFinds, PopRequest;
  }

  /** One poll of the queue, whatever it holds. */
  lemma {:induction false} PopAllEmpties(c: Client, cancelled: set<Request>)
    ensures Emptied(c, PopAll(c, cancelled), cancelled)
    decreases |c.link.queue|
  {
    if c.link.queue == [] {
      NothingEmptied(c, cancelled);
    } else {
      PopAllEmpties(PopRequest(c, c.link.queue[0] in cancelled), cancelled);
      EmptiedOneMore(c, PopAll(c, cancelled), cancelled);
    }
  }

  // ---------- What handling all messages does ----------

  predicate IsAbout(m: RegistryMessage, p: PeerId) { m == Found(p) || m == NotFound(p) }

  /** The first answer about p. */
  function FirstAbout(inbox: seq<RegistryMessage>, p: PeerId): (r: Option<RegistryMessage>)
    ensures r.Some? <==> Found(p) in inbox || NotFound(p) in inbox
    ensures r.Some? ==> IsAbout(r.value, p)
  {
    if inbox == [] then None else if IsAbout(inbox[0], p) then Some(inbox[0]) else FirstAbout(inbox[1..], p)
  }

  function ResultOf(m: RegistryMessage, provider: PeerId): Result {
    if m.Found? then FoundRemote(provider) else PeerNotFound
  }

  /** Exactly the peers that some answer was about are no longer waited for. */
  ghost predicate StopsWaiting(l: Link, l': Link) {
    forall p: PeerId ::
      && (p in l'.requests <==> p in l.requests && FirstAbout(l.inbox, p).None?)
      && (p in l'.requests ==> l'.requests[p] == l.requests[p])
  }

  /** How often r was answered or waits for a peer that an answer is about. */
  function ToAnswer(c: Client, r: Request): nat {
    multiset(c.answered)[r] +
      if FirstAbout(c.link.inbox, r.peer).Some? then multiset(Batch(c.link, r.peer))[r] else 0
  }

  /** Exactly the requests for those peers are answered, once each. */
  ghost predicate AnswersOnce(c: Client, c': Client) {
    forall r: Request :: multiset(c'.answered)[r] == ToAnswer(c, r)
  }

  /** New results come behind the ones there are, and say what the first answer about the peer said. */
  predicate RepeatsAnswers(c: Client, c': Client) {
    && |c'.results| == |c'.answered| && |c.results| == |c.answered|
    && c.answered <= c'.answered && c.results <= c'.results
    && forall i :: |c.answered| <= i < |c'.answered| ==>
         var first := FirstAbout(c.link.inbox, c'.answered[i].peer);
         first.Some? && c'.results[i] == ResultOf(first.value, c.link.provider)
  }

  /** The inbox of `c` has been emptied. */
  ghost predicate AllHandled(c: Client, c': Client) {
    && c'.link == c.link.(inbox := [], requests := c'.link.requests) && c'.dropped == c.dropped
    && StopsWaiting(c.link, c'.link) && AnswersOnce(c, c') && RepeatsAnswers(c, c')
  }

  /** What one message does. */
  lemma HandleEffect(c: Client)
    requires c.link.inbox != []
    ensures var c1, m := HandleMessage(c), c.link.inbox[0];
      var batch := if m.Found? || m.NotFound? then Batch(c.link, m.peer) else [];
      && c1.link == c.link.(inbox := c.link.inbox[1..], requests := c1.link.requests) && c1.dropped == c.dropped
      && c1.link.requests == (if m.Found? || m.NotFound? then c.link.requests - {m.peer} else c.link.requests)
      && c1.answered == c.answered + batch && c1.results == c.results + Repeat(ResultOf(m, c.link.provider), |batch|)
  {
    assert c.answered + [] == c.answered && c.results + [] == c.results;
  }

  lemma FiledRightKept(c: Client)
    requires c.link.inbox != [] && FiledRight(c.link)
    ensures FiledRight(HandleMessage(c).link)
  {
    HandleEffect(c);
    hide HandleMessage;
  }

  lemma StopsOneMore(c: Client, c': Client)
    requires c.link.inbox != [] && StopsWaiting(HandleMessage(c).link, c'.link)
    ensures StopsWaiting(c.link, c'.link)
  {
    HandleEffect(c);
    hide HandleMessage;
  }

  /** A message answers r exactly if it is about the peer of r. */
  lemma BatchCount(l: Link, m: RegistryMessage, r: Request)
    requires FiledRight(l)
    ensures var batch := if m.Found? || m.NotFound? then Batch(l, m.peer) else [];
      multiset(batch)[r] == if IsAbout(m, r.peer) then multiset(Batch(l, r.peer))[r] else 0
  {
    var batch := if m.Found? || m.NotFound? then Batch(l, m.peer) else [];
    if !IsAbout(m, r.peer) { assert r !in batch; }
  }

  lemma CountConcat(s: seq<Request>, t: seq<Request>, r: Request)
    ensures multiset(s + t)[r] == multiset(s)[r] + multiset(t)[r]
  {
  }

  lemma ToAnswerKept(c: Client, r: Request)
    requires c.link.inbox != [] && FiledRight(c.link)
    ensures ToAnswer(HandleMessage(c), r) == ToAnswer(c, r)
  {
    HandleEffect(c);
    var m, l, c1 := c.link.inbox[0], c.link, HandleMessage(c);
    hide HandleMessage;
    BatchCount(l, m, r);
    CountConcat(c.answered, if m.Found? || m.NotFound? then Batch(l, m.peer) else [], r);
    assert Batch(c1.link, r.peer) == if IsAbout(m, r.peer) then [] else Batch(l, r.peer);
    hide Batch, FiledRight;
  }

  lemma AnswersOnceMore(c: Client, c': Client)
    requires c.link.inbox != [] && FiledRight(c.link) && AnswersOnce(HandleMessage(c), c')
    ensures AnswersOnce(c, c')
  {
    hide HandleMessage, ToAnswer, FiledRight;
    forall r: Request ensures multiset(c'.answered)[r] == ToAnswer(c, r) { ToAnswerKept(c, r); }
  }

  lemma RepeatsOneMore(c: Client, c': Client)
    requires c.link.inbox != [] && FiledRight(c.link) && |c.results| == |c.answered|
    requires RepeatsAnswers(HandleMessage(c), c')
    requires forall r :: r in c'.answered[|HandleMessage(c).answered|..] ==> !IsAbout(c.link.inbox[0], r.peer)
    ensures RepeatsAnswers(c, c')
  {
    HandleEffect(c);
    var m, l, c1 := c.link.inbox[0], c.link, HandleMessage(c);
    hide HandleMessage;
    forall i | |c.answered| <= i < |c'.answered|
      ensures var first := FirstAbout(l.inbox, c'.answered[i].peer);
        first.Some? && c'.results[i] == ResultOf(first.value, l.provider)
    {
      if i < |c1.answered| {
        assert c'.answered[i] == c1.answered[i] == Batch(l, m.peer)[i - |c.answered|];
        assert c'.results[i] == c1.results[i];
      } else {
        assert c'.answered[i] in c'.answered[|c1.answered|..];
      }
    }
  }

  /** A request answered later is not one for the peer of the first message. */
  lemma AnsweredLater(c: Client, c': Client)
    requires c.link.inbox != [] && FiledRight(c.link) && AnswersOnce(HandleMessage(c), c')
    requires HandleMessage(c).answered <= c'.answered
    ensures forall r :: r in c'.answered[|HandleMessage(c).answered|..] ==> !IsAbout(c.link.inbox[0], r.peer)
  {
    HandleEffect(c);
    var c1 := HandleMessage(c);
    hide HandleMessage;
    forall r | r in c'.answered[|c1.answered|..]
      ensures !IsAbout(c.link.inbox[0], r.peer)
    {
      assert c'.answered == c1.answered + c'.answered[|c1.answered|..];
      assert multiset(c'.answered) == multiset(c1.answered) + multiset(c'.answered[|c1.answered|..]);
      assert r in multiset(c'.answered[|c1.answered|..]);
      assert multiset(c'.answered)[r] == ToAnswer(c1, r);
      assert multiset(Batch(c1.link, r.peer))[r] > 0;
    }
  }

  /** One poll of the message loop, whatever the inbox holds. */
  lemma {:induction false} HandleAllHandles(c: Client)
    requires FiledRight(c.link) && |c.results| == |c.answered|
    ensures AllHandled(c, HandleAll(c))
    decreases |c.link.inbox|
  {
    var c' := HandleAll(c);
    if c.link.inbox != [] {
      var c1 := HandleMessage(c);
      HandleEffect(c);
      FiledRightKept(c);
      HandleAllHandles(c1);
      hide HandleMessage;
      StopsOneMore(c, c');
      AnswersOnceMore(c, c');
      AnsweredLater(c, c');
      RepeatsOneMore(c, c');
      hide StopsWaiting, AnswersOnce, RepeatsAnswers;
    }
  }

  class OutgoingStream {
    const provider: PeerId
    var findPeerRequest: seq<Request>
    var requests: map<PeerId, seq<Request>>
    var out: seq<RegistryMessage>
    var inbox: seq<RegistryMessage>
    var answered: seq<Request>
    var results: seq<Result>
    var dropped: map<Request, Loss>

    function Abs(): Client
      reads this
    {
      Client(Link(provider, findPeerRequest, requests, out, inbox), answered, results, dropped)
    }

    constructor (provider: PeerId, findPeerRequest: seq<Request>)
      ensures Abs() == Client(Link(provider, findPeerRequest, map[], [], []), [], [], map[])
    {
      this.provider, this.findPeerRequest := provider, findPeerRequest;
      requests, out, inbox, answered, results, dropped := map[], [], [], [], [], map[];
    }

    method PollFindPeerRequest(cancelled: set<Request>)
      modifies this
      ensures Abs() == PopAll(old(Abs()), cancelled)
      ensures Emptied(old(Abs()), Abs(), cancelled)
    {
      PopAllEmpties(Abs(), cancelled);
      hide Emptied;
      while findPeerRequest != []
        invariant PopAll(Abs(), cancelled) == PopAll(old(Abs()), cancelled)
        decreases |findPeerRequest|
      {
        var req := findPeerRequest[0];
        findPeerRequest := findPeerRequest[1..];
        if req in cancelled {
          dropped := dropped[req := Cancelled];
          continue;
        }
        if req.peer == provider {
          answered, results := answered + [req], results + [FoundWithHandle(provider)];
        } else if req.peer in requests {
          requests := requests[req.peer := requests[req.peer] + [req]];
        } else {
          requests := requests[req.peer := [req]];
          out := out + [Find(req.peer)];
        }
      }
    }

    /** Sends a result to every sender that waits for `peer`. */
    method Answer(peer: PeerId, result: Result)
      modifies this
      ensures Abs() == AnswerAll(old(Abs()), peer, result)
    {
      if peer in requests {
        var batch := requests[peer];
        requests := requests - {peer};
        var i := 0;
        while i < |batch|
          invariant 0 <= i <= |batch|
          invariant answered == old(answered) + batch[..i] && results == old(results) + Repeat(result, i)
          invariant requests == old(requests) - {peer} && out == old(out) && inbox == old(inbox)
          invariant findPeerRequest == old(findPeerRequest) && dropped == old(dropped)
        {
          assert batch[..i + 1] == batch[..i] + [batch[i]];
          answered, results := answered + [batch[i]], results + [result];
          i := i + 1;
        }
        assert batch[..i] == batch;
      }
    }

    /** The message loop: answers, and everything else is ignored here. */
    method PollMessages()
      modifies this
      ensures Abs() == HandleAll(old(Abs()))
      ensures FiledRight(old(Abs()).link) && |old(results)| == |old(answered)| ==> AllHandled(old(Abs()), Abs())
    {
      if FiledRight(Abs().link) && |results| == |answered| { HandleAllHandles(Abs()); }
      hide AllHandled;
      while inbox != []
        invariant HandleAll(Abs()) == HandleAll(old(Abs()))
        decreases |inbox|
      {
        ghost var before := Abs();
        var msg := inbox[0];
        inbox := inbox[1..];
        match msg {
          case Found(peer) => Answer(peer, FoundRemote(provider));
          case NotFound(peer) => Answer(peer, PeerNotFound);
          case _ =>
        }
        assert Abs() == HandleMessage(before);
      }
    }
  }

  /** All replies of the server, given the peers it has registered. */
  function Replies(ms: seq<RegistryMessage>, registered: set<PeerId>): seq<RegistryMessage> {
    if ms == [] then []
    else Reply(ms[0], ms[0].Find? && ms[0].peer in registered) + Replies(ms[1..], registered)
  }

  predicate IsQuestion(m: RegistryMessage) { m.Find? || m.Ping? }

  /** The reply that answers a question truthfully. */
  predicate Answers(m: RegistryMessage, reply: RegistryMessage, registered: set<PeerId>) {
    || (m.Ping? && reply.Pong?)
    || (m.Find? && m.peer in registered && reply == Found(m.peer))
    || (m.Find? && m.peer !in registered && reply == NotFound(m.peer))
  }

  function Questions(ms: seq<RegistryMessage>): seq<RegistryMessage> {
    if ms == [] then [] else (if IsQuestion(ms[0]) then [ms[0]] else []) + Questions(ms[1..])
  }

  /** The replies answer the questions one by one, in order, and nothing else. */
  lemma {:induction false} RepliesAnswerQuestions(ms: seq<RegistryMessage>, registered: set<PeerId>)
    ensures var qs, rs := Questions(ms), Replies(ms, registered);
      |qs| == |rs| && forall i :: 0 <= i < |rs| ==> Answers(qs[i], rs[i], registered)
  {
    if ms != [] { RepliesAnswerQuestions(ms[1..], registered); }
  }

  /** The server's end of the same connection. */
  class IncomingStream {
    /** Messages from the client that are ready, and messages sent back. */
    var stream: seq<RegistryMessage>
    var sent: seq<RegistryMessage>

    constructor (ready: seq<RegistryMessage>)
      ensures stream == ready && sent == []
    {
      stream, sent := ready, [];
    }

    method Poll(registered: set<PeerId>)
      modifies this
      ensures stream == [] && sent == old(sent) + Replies(old(stream), registered)
    {
      while stream != []
        invariant sent + Replies(stream, registered) == old(sent) + Replies(old(stream), registered)
        decreases |stream|
      {
        var msg := stream[0];
        ghost var reply := Reply(msg, msg.Find? && msg.peer in registered);
        Assoc(sent, reply, Replies(stream[1..], registered));
        stream := stream[1..];
        match msg {
          case Find(peer) =>
            var answer := if peer in registered then Found(peer) else NotFound(peer);
            sent := sent + [answer];
          case Ping => sent := sent + [Pong];
          case _ =>
        }
      }
    }
  }

  // ---------- The reconnecting handler ----------

  /** Every state that can still serve requests holds the queue. */
  datatype Phase =
    | RequestNextPeerAddr(queue: seq<Request>)
    | ConnectToPeer(queue: seq<Request>)
    | HandleConnection(link: Link)
    | Stopped

  /**
   `submitted[id]` is the peer that request id asked for. `verdicts` is what the provider of the current
   connection said last about each peer. `sendFailed` is the failing `expect` in `find_peer`.
   */
  datatype World = World(
    phase: Phase, registryAlive: bool, submitted: seq<PeerId>,
    answered: seq<Request>, results: seq<Result>, dropped: map<Request, Loss>,
    verdicts: map<PeerId, bool>, sendFailed: bool)

  const START := World(RequestNextPeerAddr([]), true, [], [], [], map[], map[], false)

  datatype Event =
    | Submit(peer: PeerId)
    | DropRegistry
    | AddressReady | ConnectFails | Connected(provider: PeerId)
    | Pop(cancelled: bool) | SendPing | Serve(has: bool) | Handle
    | ConnectionEnds
    | CheckDropped

  function Queue(phase: Phase): seq<Request>
    requires !phase.Stopped?
  {
    if phase.HandleConnection? then phase.link.queue else phase.queue
  }

  function Enqueue(phase: Phase, r: Request): Phase
    requires !phase.Stopped?
  {
    match phase
    case RequestNextPeerAddr(q) => RequestNextPeerAddr(q + [r])
    case ConnectToPeer(q) => ConnectToPeer(q + [r])
    case HandleConnection(l) => HandleConnection(l.(queue := l.queue + [r]))
  }

  function WithClient(w: World, c: Client): World {
    w.(phase := HandleConnection(c.link), answered := c.answered, results := c.results, dropped := c.dropped)
  }

  /** The client of the current connection. */
  function ClientOf(w: World): Client
    requires w.phase.HandleConnection?
  {
    Client(w.phase.link, w.answered, w.results, w.dropped)
  }

  /** The requests whose senders wait for an answer. */
  function Senders(requests: map<PeerId, seq<Request>>): set<Request> {
    set p, r | p in requests && r in requests[p] :: r
  }

  /** The requests that end together with the handler. */
  function HeldBy(phase: Phase): set<Request>
    requires !phase.Stopped?
  {
    (set r | r in Queue(phase)) + (if phase.HandleConnection? then Senders(phase.link.requests) else {})
  }

  function GiveUp(dropped: map<Request, Loss>, rs: set<Request>, why: Loss): map<Request, Loss> {
    dropped + map r | r in rs :: why
  }

  /** `remote_registry_dropped`: the machine ends once the registry is gone, and all it holds goes with it. */
  function StopIfDropped(w: World, next: World): World
    requires !w.phase.Stopped?
  {
    if w.registryAlive then next
    else w.(phase := Stopped, dropped := GiveUp(w.dropped, HeldBy(w.phase), HandlerStopped))
  }

  function StepHandler(w: World, e: Event): World {
    match e
    case AddressReady =>
      if w.phase.RequestNextPeerAddr? then StopIfDropped(w, w.(phase := ConnectToPeer(w.phase.queue))) else w
    case ConnectFails =>
      if w.phase.ConnectToPeer? then StopIfDropped(w, w.(phase := RequestNextPeerAddr(w.phase.queue))) else w
    case Connected(provider) =>
      if !w.phase.ConnectToPeer? then w else
      StopIfDropped(w, w.(phase := HandleConnection(Link(provider, w.phase.queue, map[], [], [])), verdicts := map[]))
    case ConnectionEnds =>
      if !w.phase.HandleConnection? then w else
      StopIfDropped(w, w.(phase := RequestNextPeerAddr(w.phase.link.queue),
                          dropped := GiveUp(w.dropped, Senders(w.phase.link.requests), ConnectionLost)))
    case CheckDropped =>
      if w.phase.ConnectToPeer? || w.phase.HandleConnection? then StopIfDropped(w, w) else w
    case _ => w
  }

  function StepConnection(w: World, e: Event): World {
    if !w.phase.HandleConnection? then w else
    var link := w.phase.link;
    var c := ClientOf(w);
    match e
    case Pop(cancelled) => if link.queue == [] then w else WithClient(w, PopRequest(c, cancelled))
    case Handle => if link.inbox == [] then w else WithClient(w, HandleMessage(c))
    case SendPing => w.(phase := HandleConnection(link.(out := link.out + [Ping])))
    case Serve(has) =>
      if link.out == [] then w else
      w.(phase := HandleConnection(ServeMessage(link, has)),
         verdicts := if link.out[0].Find? then w.verdicts[link.out[0].peer := has] else w.verdicts)
    case _ => w
  }

  function StepCaller(w: World, e: Event): World {
    match e
    case Submit(peer) =>
      if !w.registryAlive then w
      else if w.phase.Stopped? then w.(sendFailed := true)
      else w.(phase := Enqueue(w.phase, Request(peer, |w.submitted|)), submitted := w.submitted + [peer])
    case DropRegistry => w.(registryAlive := false)
    case _ => w
  }

  /** Every event is handled by exactly one of the three parts; the others leave the state alone. */
  function Step(w: World, e: Event): World { StepCaller(StepConnection(StepHandler(w, e), e), e) }

  function Run(w: World, events: seq<Event>): World
    decreases |events|
  {
    if events == [] then w else Run(Step(w, events[0]), events[1..])
  }

  /** Emptying the queue, as the object does in one poll, is a run of the machine: one pop for each request. */
  lemma {:induction false} PopAllIsARun(w: World, cancelled: set<Request>) returns (events: seq<Event>)
    requires w.phase.HandleConnection?
    ensures Run(w, events) == WithClient(w, PopAll(ClientOf(w), cancelled))
    ensures var q := w.phase.link.queue;
      |events| == |q| && forall i :: 0 <= i < |q| ==> events[i] == Pop(q[i] in cancelled)
    decreases |w.phase.link.queue|
  {
    var q := w.phase.link.queue;
    if q == [] {
      events := [];
    } else {
      var e := Pop(q[0] in cancelled);
      var rest := PopAllIsARun(Step(w, e), cancelled);
      events := [e] + rest;
      assert events[1..] == rest;
    }
  }

  /** Handling all messages that are ready is a run of the machine. */
  lemma {:induction false} HandleAllIsARun(w: World) returns (events: seq<Event>)
    requires w.phase.HandleConnection?
    ensures Run(w, events) == WithClient(w, HandleAll(ClientOf(w)))
    ensures |events| == |w.phase.link.inbox| && forall i :: 0 <= i < |events| ==> events[i] == Handle
    decreases |w.phase.link.inbox|
  {
    if w.phase.link.inbox == [] {
      events := [];
    } else {
      var rest := HandleAllIsARun(Step(w, Handle));
      events := [Handle] + rest;
      assert events[1..] == rest;
    }
  }

  /** One poll of the server is a run of the machine, too. */
  lemma {:induction false} ServeAllIsARun(w: World, registered: set<PeerId>) returns (events: seq<Event>)
    requires w.phase.HandleConnection?
    ensures var w', l := Run(w, events), w.phase.link;
      w' == w.(phase := HandleConnection(l.(out := [], inbox := l.inbox + Replies(l.out, registered))),
               verdicts := w'.verdicts)
    ensures var out := w.phase.link.out;
      |events| == |out| && forall i :: 0 <= i < |out| ==> events[i] == Serve(out[i].Find? && out[i].peer in registered)
    decreases |w.phase.link.out|
  {
    var l := w.phase.link;
    if l.out == [] {
      events := [];
      assert l.inbox + [] == l.inbox;
    } else {
      var has := l.out[0].Find? && l.out[0].peer in registered;
      var rest := ServeAllIsARun(Step(w, Serve(has)), registered);
      events := [Serve(has)] + rest;
      assert events[1..] == rest;
      Assoc(l.inbox, Reply(l.out[0], has), Replies(l.out[1..], registered));
    }
  }
}
