/**
 The bounded queue of mDNS lookups (src/registries/mdns.rs, `Discovery`). The number of queued requests is
 bounded through the timers: fulfilling a request removes it from the queue but leaves its timer running.
 */
module MdnsDiscovery {
  import opened Common

  const MAX_QUEUED_REQUESTS: nat := 10

  /** Ten seconds until a queued request is given up. */
  const QUEUE_TIME: nat := 10

  datatype Timer = Timer(peer: PeerId, deadline: int)

  /** A lookup and the sender of its result. */
  datatype Lookup = Lookup(peer: PeerId, sender: nat)

  /** `fulfilled` logs the lookups for which a connection attempt was started. */
  datatype Queue = Queue(
    known: set<PeerId>, queued: map<PeerId, nat>, timers: multiset<Timer>, fulfilled: seq<Lookup>)

  const EMPTY := Queue({}, map[], multiset{}, [])

  // ---------- Specification on values ----------

  /** A new request: served from the cache, ignored, dropped, or queued with a timer. */
  function OnRequest(d: Queue, r: Lookup, now: int): Queue {
    if r.peer in d.known then d.(fulfilled := d.fulfilled + [r])
    else if r.peer in d.queued then d
    else if |d.timers| >= MAX_QUEUED_REQUESTS then d
    else d.(queued := d.queued[r.peer := r.sender], timers := d.timers + multiset{Timer(r.peer, now + QUEUE_TIME)})
  }

  /** mDNS found a peer other than the local one. */
  function OnFound(d: Queue, p: PeerId): Queue {
    var d1 := d.(known := d.known + {p});
    if p in d.queued then d1.(queued := d.queued - {p}, fulfilled := d.fulfilled + [Lookup(p, d.queued[p])]) else d1
  }

  /** A timer fires: the request of its peer is given up, whichever request that is. */
  function OnTimer(d: Queue, t: Timer): Queue
    requires t in d.timers
  {
    d.(timers := d.timers - multiset{t}, queued := d.queued - {t.peer})
  }

  /** A timer fails: it is gone, and the queue is left alone. */
  function OnTimerError(d: Queue, t: Timer): Queue
    requires t in d.timers
  {
    d.(timers := d.timers - multiset{t})
  }

  /** A peer drops out of the cache, by age or for lack of room. */
  function OnEvict(d: Queue, p: PeerId): Queue { d.(known := d.known - {p}) }

  // ---------- The bound ----------

  predicate HasTimer(timers: multiset<Timer>, p: PeerId) { exists t :: t in timers && t.peer == p }

  predicate Expired(timers: multiset<Timer>, p: PeerId, now: int) {
    exists t :: t in timers && t.peer == p && t.deadline <= now
  }

  /** Every queued peer has a timer, and there are at most ten timers. */
  predicate Inv(d: Queue) {
    |d.timers| <= MAX_QUEUED_REQUESTS && forall p :: p in d.queued ==> HasTimer(d.timers, p)
  }

  /** Distinct peers have distinct timers. */
  lemma {:induction false} NoMorePeersThanTimers(peers: set<PeerId>, timers: multiset<Timer>)
    requires forall p :: p in peers ==> HasTimer(timers, p)
    ensures |peers| <= |timers|
    decreases peers
  {
    if peers != {} {
      var p :| p in peers;
      var t :| t in timers && t.peer == p;
      var fewer := timers - multiset{t};
      forall q | q in peers - {p}
        ensures HasTimer(fewer, q)
      {
        var u :| u in timers && u.peer == q;
        assert u in fewer;
      }
      NoMorePeersThanTimers(peers - {p}, fewer);
    }
  }

  lemma RequestKeeps(d: Queue, r: Lookup, now: int)
    requires Inv(d)
    ensures Inv(OnRequest(d, r, now))
  {
    var d' := OnRequest(d, r, now);
    forall p | p in d'.queued
      ensures HasTimer(d'.timers, p)
    {
      if p in d.queued {
        var t :| t in d.timers && t.peer == p;
        assert t in d'.timers;
      } else {
        assert Timer(p, now + QUEUE_TIME) in d'.timers;
      }
    }
  }

  lemma TimerKeeps(d: Queue, t: Timer)
    requires Inv(d) && t in d.timers
    ensures Inv(OnTimer(d, t))
  {
    var d' := OnTimer(d, t);
    forall p | p in d'.queued
      ensures HasTimer(d'.timers, p)
    {
      var u :| u in d.timers && u.peer == p;
      assert u in d'.timers;
    }
  }

  /**
   The bound rests on timers that do not fail: a failing timer keeps the invariant exactly if its peer is not
   queued or has another timer.
   */
  lemma TimerErrorKeepsIff(d: Queue, t: Timer)
    requires Inv(d) && t in d.timers
    ensures Inv(OnTimerError(d, t)) <==> t.peer !in d.queued || HasTimer(d.timers - multiset{t}, t.peer)
  {
    var d' := OnTimerError(d, t);
    forall p | p in d.queued && p != t.peer
      ensures HasTimer(d'.timers, p)
    {
      var u :| u in d.timers && u.peer == p;
      assert u in d'.timers;
    }
  }

  datatype Event =
    | Request(lookup: Lookup) | FoundPeer(peer: PeerId)
    | Fire(timer: Timer) | Evict(peer: PeerId)
    | Tick(now: int)

  datatype World = World(d: Queue, now: int)

  /** Timers fire once their deadline has passed; an event that is not possible changes nothing. */
  function Step(w: World, e: Event): World {
    match e
    case Request(lookup) => w.(d := OnRequest(w.d, lookup, w.now))
    case FoundPeer(peer) => w.(d := OnFound(w.d, peer))
    case Fire(timer) => if timer in w.d.timers && timer.deadline <= w.now then w.(d := OnTimer(w.d, timer)) else w
    case Evict(peer) => w.(d := OnEvict(w.d, peer))
    case Tick(now) => if now >= w.now then w.(now := now) else w
  }

  function Run(w: World, events: seq<Event>): World
    decreases |events|
  {
    if events == [] then w else Run(Step(w, events[0]), events[1..])
  }

  lemma StepKeeps(w: World, e: Event)
    requires Inv(w.d)
    ensures Inv(Step(w, e).d)
  {
    match e
    case Request(lookup) => RequestKeeps(w.d, lookup, w.now);
    case FoundPeer(peer) =>
    case Fire(timer) => if timer in w.d.timers { TimerKeeps(w.d, timer); }
    case Evict(_) =>
    case Tick(_) =>
  }

  lemma {:induction false} RunKeeps(w: World, events: seq<Event>)
    requires Inv(w.d)
    ensures Inv(Run(w, events).d)
    decreases |events|
  {
    if events != [] {
      StepKeeps(w, events[0]);
      RunKeeps(Step(w, events[0]), events[1..]);
    }
  }

  /** In every run each queued peer has a live timer, and queued requests <= live timers <= 10. */
  lemma QueueIsBounded(events: seq<Event>, start: int)
    ensures var d := Run(World(EMPTY, start), events).d;
      && (forall p :: p in d.queued ==> HasTimer(d.timers, p))
      && |d.queued| <= |d.timers| <= 10
  {
    RunKeeps(World(EMPTY, start), events);
    var d := Run(World(EMPTY, start), events).d;
    NoMorePeersThanTimers(d.queued.Keys, d.timers);
  }

  // ---------- Where lookups go ----------

  /** How often a lookup is held: fulfilled, or waiting in the queue. */
  function Held(d: Queue, l: Lookup): nat {
    multiset(d.fulfilled)[l] + (if l.peer in d.queued && d.queued[l.peer] == l.sender then 1 else 0)
  }

  /** A request is taken on if its peer is known, or if it is the first for its peer and there is room. */
  predicate TakenOn(d: Queue, r: Lookup) {
    r.peer in d.known || (r.peer !in d.queued && |d.timers| < MAX_QUEUED_REQUESTS)
  }

  /**
   A lookup of a known peer is served at once and nothing waits for it; a lookup of an unknown peer is never
   served, and waits, with one new timer of ten seconds, exactly if it is the first for its peer and there is
   room. Either way no other lookup is touched.
   */
  lemma RequestHolds(d: Queue, r: Lookup, now: int, l: Lookup)
    ensures var d' := OnRequest(d, r, now);
      && Held(d', l) == Held(d, l) + (if l == r && TakenOn(d, r) then 1 else 0)
      && multiset(d'.fulfilled)[l] == multiset(d.fulfilled)[l] + (if l == r && r.peer in d.known then 1 else 0)
      && |d'.fulfilled| == |d.fulfilled| + (if r.peer in d.known then 1 else 0)
      && (r.peer in d'.queued && r.peer !in d.queued <==> TakenOn(d, r) && r.peer !in d.known)
      && (d'.timers != d.timers <==> TakenOn(d, r) && r.peer !in d.known)
      && (d'.timers != d.timers ==> d'.timers == d.timers + multiset{Timer(r.peer, now + QUEUE_TIME)})
      && d'.known == d.known
  {
    var t := Timer(r.peer, now + QUEUE_TIME);
    assert (d.timers + multiset{t})[t] == d.timers[t] + 1;
  }

  /** A found peer leaves the queue and its waiting lookup is fulfilled, no other is touched. */
  lemma FoundHolds(d: Queue, p: PeerId, l: Lookup)
    ensures Held(OnFound(d, p), l) == Held(d, l)
    ensures p !in OnFound(d, p).queued && p in OnFound(d, p).known
    ensures multiset(OnFound(d, p).fulfilled)[l] >= multiset(d.fulfilled)[l]
  {
  }

  lemma TimerHolds(d: Queue, t: Timer, l: Lookup)
    requires t in d.timers
    ensures Held(OnTimer(d, t), l) <= Held(d, l) && OnTimer(d, t).fulfilled == d.fulfilled
    ensures l.peer != t.peer ==> Held(OnTimer(d, t), l) == Held(d, l)
  {
  }

  /** How often a lookup was requested. */
  function Requested(events: seq<Event>, l: Lookup): nat {
    if events == [] then 0 else (if events[0] == Request(l) then 1 else 0) + Requested(events[1..], l)
  }

  lemma {:induction false} RunHolds(w: World, events: seq<Event>, l: Lookup)
    ensures Held(Run(w, events).d, l) <= Held(w.d, l) + Requested(events, l)
    decreases |events|
  {
    if events != [] {
      var e := events[0];
      match e {
        case Request(r) => RequestHolds(w.d, r, w.now, l);
        case FoundPeer(p) => FoundHolds(w.d, p, l);
        case Fire(t) => if t in w.d.timers { TimerHolds(w.d, t, l); }
        case Evict(_) =>
        case Tick(_) =>
      }
      RunHolds(Step(w, e), events[1..], l);
    }
  }

  /** In every run a lookup is fulfilled and queued together at most as often as it was requested. */
  lemma NoLookupIsServedTwice(events: seq<Event>, start: int, l: Lookup)
    ensures Held(Run(World(EMPTY, start), events).d, l) <= Requested(events, l)
  {
    RunHolds(World(EMPTY, start), events, l);
  }

  predicate NoTimerBefore(timers: multiset<Timer>, p: PeerId, end: int) {
    forall t :: t in timers && t.peer == p ==> t.deadline >= end
  }

  /** As long as its peer is not found, the request stays queued in every run that ends before `end`. */
  ghost predicate KeptUntil(w: World, r: Lookup, end: int) {
    forall events :: FoundPeer(r.peer) !in events && Run(w, events).now < end ==>
      var d := Run(w, events).d; r.peer in d.queued && d.queued[r.peer] == r.sender
  }

  lemma {:induction false} TimeAdvances(w: World, events: seq<Event>)
    ensures w.now <= Run(w, events).now
    decreases |events|
  {
    if events != [] { TimeAdvances(Step(w, events[0]), events[1..]); }
  }

  lemma {:induction false} QueuedUntilFirstTimer(w: World, r: Lookup, end: int, events: seq<Event>)
    requires r.peer in w.d.queued && w.d.queued[r.peer] == r.sender && NoTimerBefore(w.d.timers, r.peer, end)
    requires FoundPeer(r.peer) !in events && Run(w, events).now < end
    ensures var d := Run(w, events).d; r.peer in d.queued && d.queued[r.peer] == r.sender
    decreases |events|
  {
    if events != [] {
      TimeAdvances(w, events);
      assert events[0] in events;
      QueuedUntilFirstTimer(Step(w, events[0]), r, end, events[1..]);
    }
  }

  /** A timer takes down whatever request of its peer is queued when it fires. */
  lemma TimerEndsRequest(w: World, r: Lookup, t: Timer, end: int)
    requires t in w.d.timers && t.peer == r.peer && t.deadline < end && w.now < end
    ensures !KeptUntil(w, r, end)
  {
    var later := Tick(if t.deadline < w.now then w.now else t.deadline);
    var events := [later, Fire(t)];
    var w1 := Step(w, later);
    assert events[1..] == [Fire(t)] && [Fire(t)][1..] == [];
    assert Run(w, events) == Run(w1, [Fire(t)]) == Run(Step(w1, Fire(t)), []);
    assert r.peer !in Run(w, events).d.queued;
  }

  /**
   A request that is queued keeps its place for the full ten seconds, in every run in which its peer is not
   found, exactly if no older timer of its peer is still running at that point; such a timer is left behind
   by a request that was fulfilled before.
   */
  lemma FullTimeIffNoOldTimer(w: World, r: Lookup)
    requires r.peer !in w.d.known && r.peer !in w.d.queued && |w.d.timers| < MAX_QUEUED_REQUESTS
    ensures KeptUntil(Step(w, Request(r)), r, w.now + QUEUE_TIME) <==>
      NoTimerBefore(w.d.timers, r.peer, w.now + QUEUE_TIME)
  {
    var w', end := Step(w, Request(r)), w.now + QUEUE_TIME;
    if NoTimerBefore(w.d.timers, r.peer, end) {
      assert NoTimerBefore(w'.d.timers, r.peer, end);
      forall events | FoundPeer(r.peer) !in events && Run(w', events).now < end
        ensures var d := Run(w', events).d; r.peer in d.queued && d.queued[r.peer] == r.sender
      {
        QueuedUntilFirstTimer(w', r, end, events);
      }
    } else {
      var t :| t in w.d.timers && t.peer == r.peer && t.deadline < end;
      assert t in w'.d.timers;
      TimerEndsRequest(w', r, t, end);
    }
  }

  lemma {:induction false} RunSnoc(w: World, events: seq<Event>, e: Event)
    ensures Run(w, events + [e]) == Step(Run(w, events), e)
    decreases |events|
  {
    if events == [] {
      assert ([e])[1..] == [] && events + [e] == [e];
    } else {
      assert (events + [e])[0] == events[0] && (events + [e])[1..] == events[1..] + [e];
      RunSnoc(Step(w, events[0]), events[1..], e);
    }
  }

  /** Peer 7 is asked for and found; its timer stays behind when it drops out of the cache. */
  lemma LeavesTimer() returns (events: seq<Event>)
    ensures Run(World(EMPTY, 0), events) == World(Queue({}, map[], multiset{Timer(7, 10)}, [Lookup(7, 1)]), 0)
  {
    hide Run;
    var start := World(EMPTY, 0);
    RunSnoc(start, [], Request(Lookup(7, 1)));
    assert Run(start, []) == start by { RunNone(start); }
    var first := [] + [Request(Lookup(7, 1))];
    RunSnoc(start, first, FoundPeer(7));
    events := first + [FoundPeer(7)];
    RunSnoc(start, events, Evict(7));
    events := events + [Evict(7)];
  }

  lemma RunNone(w: World)
    ensures Run(w, []) == w
  {
  }

  /** Asked for again at time 9, peer 7 is given up at time 10, by the timer of the first request. */
  lemma GivenUpEarly() returns (events: seq<Event>, last: Event)
    ensures var w, w' := Run(World(EMPTY, 0), events), Run(World(EMPTY, 0), events + [last]);
      && w.d.queued == map[7 := 2] && Timer(7, 19) in w.d.timers
      && w'.now == 10 && 7 !in w'.d.queued && Lookup(7, 2) !in w'.d.fulfilled
  {
    hide Run;
    var start := World(EMPTY, 0);
    events := LeavesTimer();
    RunSnoc(start, events, Tick(9));
    events := events + [Tick(9)];
    RunSnoc(start, events, Request(Lookup(7, 2)));
    events := events + [Request(Lookup(7, 2))];
    RunSnoc(start, events, Tick(10));
    events := events + [Tick(10)];
    assert Run(start, events).d.timers == multiset{Timer(7, 10), Timer(7, 19)};
    last := Fire(Timer(7, 10));
    RunSnoc(start, events, last);
  }

  // ---------- The object ----------

  function OnRequests(d: Queue, rs: seq<Lookup>, now: int): Queue
    decreases |rs|
  {
    if rs == [] then d else OnRequests(OnRequest(d, rs[0], now), rs[1..], now)
  }

  /** The lookups of known peers, in order. */
  function Cached(rs: seq<Lookup>, known: set<PeerId>): seq<Lookup> {
    if rs == [] then [] else
    var last := rs[|rs| - 1];
    Cached(rs[..|rs| - 1], known) + (if last.peer in known then [last] else [])
  }

  predicate Asks(rs: seq<Lookup>, p: PeerId) { exists i :: 0 <= i < |rs| && rs[i].peer == p }

  /** The first lookup of each peer that is not in `settled`, in order. */
  function Newcomers(rs: seq<Lookup>, settled: set<PeerId>): (firsts: seq<Lookup>)
    ensures forall i :: 0 <= i < |firsts| ==> firsts[i] in rs && firsts[i].peer !in settled
    ensures forall i, j :: 0 <= i < j < |firsts| ==> firsts[i].peer != firsts[j].peer
    ensures forall i :: 0 <= i < |rs| && rs[i].peer !in settled ==> Asks(firsts, rs[i].peer)
  {
    if rs == [] then [] else
    var front, last := Newcomers(rs[..|rs| - 1], settled), rs[|rs| - 1];
    if last.peer in settled || Asks(front, last.peer) then front
    else
      var firsts := front + [last];
      assert firsts[|front|].peer == last.peer && forall i :: 0 <= i < |front| ==> firsts[i] == front[i];
      assert forall p :: Asks(front, p) ==> Asks(firsts, p);
      firsts
  }

  /** As many of them as there is room for. */
  function Admitted(d: Queue, rs: seq<Lookup>): seq<Lookup> {
    var firsts := Newcomers(rs, d.known + d.queued.Keys);
    var room := if |d.timers| < MAX_QUEUED_REQUESTS then MAX_QUEUED_REQUESTS - |d.timers| else 0;
    if |firsts| <= room then firsts else firsts[..room]
  }

  function NewTimers(admitted: seq<Lookup>, now: int): multiset<Timer> {
    if admitted == [] then multiset{}
    else NewTimers(admitted[..|admitted| - 1], now) + multiset{Timer(admitted[|admitted| - 1].peer, now + QUEUE_TIME)}
  }

  /** Those admitted have joined the queue, each with the sender that asked first and a timer of ten seconds. */
  ghost predicate Joined(d: Queue, d': Queue, admitted: seq<Lookup>, now: int) {
    && d'.timers == d.timers + NewTimers(admitted, now)
    && (forall p :: p in d'.queued <==> p in d.queued || Asks(admitted, p))
    && (forall p :: p in d.queued ==> d'.queued[p] == d.queued[p])
    && (forall i :: 0 <= i < |admitted| ==>
          admitted[i].peer in d'.queued && d'.queued[admitted[i].peer] == admitted[i].sender)
  }

  /**
   What a whole sequence of lookups does: all lookups of known peers are served, in order; of the peers neither
   known nor queued the first ones, as far as there is room, are queued.
   */
  ghost predicate AllAnswered(d: Queue, d': Queue, rs: seq<Lookup>, now: int) {
    && d'.known == d.known && d'.fulfilled == d.fulfilled + Cached(rs, d.known)
    && Joined(d, d', Admitted(d, rs), now)
  }

  lemma {:induction false} NewTimersCount(admitted: seq<Lookup>, now: int)
    ensures |NewTimers(admitted, now)| == |admitted|
  {
    if admitted != [] { NewTimersCount(admitted[..|admitted| - 1], now); }
  }

  lemma {:induction false} OnRequestsSnoc(d: Queue, rs: seq<Lookup>, r: Lookup, now: int)
    ensures OnRequests(d, rs + [r], now) == OnRequest(OnRequests(d, rs, now), r, now)
    decreases |rs|
  {
    if rs == [] {
      assert rs + [r] == [r] && [r][1..] == [];
    } else {
      assert (rs + [r])[0] == rs[0] && (rs + [r])[1..] == rs[1..] + [r];
      OnRequestsSnoc(OnRequest(d, rs[0], now), rs[1..], r, now);
    }
  }

  /** How one more lookup changes who is admitted. */
  lemma AdmittedSnoc(d: Queue, rs: seq<Lookup>, r: Lookup)
    ensures var before, after := Admitted(d, rs), Admitted(d, rs + [r]);
      var settled := d.known + d.queued.Keys;
      if r.peer in settled || Asks(Newcomers(rs, settled), r.peer) || |d.timers| + |before| >= MAX_QUEUED_REQUESTS
      then after == before else after == before + [r]
  {
    assert (rs + [r])[..|rs|] == rs;
  }

  /** A newcomer that is not admitted has found no room. */
  lemma NotAdmitted(d: Queue, rs: seq<Lookup>, p: PeerId)
    requires Asks(Newcomers(rs, d.known + d.queued.Keys), p) && !Asks(Admitted(d, rs), p)
    ensures |d.timers| + |Admitted(d, rs)| >= MAX_QUEUED_REQUESTS
  {
    hide Newcomers;
  }

  lemma AdmittedIsNew(d: Queue, rs: seq<Lookup>, p: PeerId)
    requires Asks(Admitted(d, rs), p)
    ensures Asks(Newcomers(rs, d.known + d.queued.Keys), p) && p !in d.known && p !in d.queued
  {
    var firsts, admitted := Newcomers(rs, d.known + d.queued.Keys), Admitted(d, rs);
    assert forall i :: 0 <= i < |admitted| ==> admitted[i] == firsts[i];
  }

  /** The lookup joins those admitted exactly if the queue takes it on. */
  lemma JoinsIff(d: Queue, d1: Queue, rs: seq<Lookup>, r: Lookup, now: int)
    requires AllAnswered(d, d1, rs, now)
    ensures Admitted(d, rs + [r]) ==
      if TakenOn(d1, r) && r.peer !in d1.known then Admitted(d, rs) + [r] else Admitted(d, rs)
  {
    AdmittedSnoc(d, rs, r);
    NewTimersCount(Admitted(d, rs), now);
    if Asks(Admitted(d, rs), r.peer) {
      AdmittedIsNew(d, rs, r.peer);
    } else if Asks(Newcomers(rs, d.known + d.queued.Keys), r.peer) {
      NotAdmitted(d, rs, r.peer);
    }
    hide Newcomers, Admitted, NewTimers, Cached;
  }

  lemma CachedSnoc(rs: seq<Lookup>, r: Lookup, known: set<PeerId>)
    ensures Cached(rs + [r], known) == Cached(rs, known) + (if r.peer in known then [r] else [])
  {
    assert (rs + [r])[..|rs|] == rs;
  }

  lemma AsksSnoc(rs: seq<Lookup>, r: Lookup, p: PeerId)
    ensures Asks(rs + [r], p) <==> Asks(rs, p) || r.peer == p
  {
    assert (rs + [r])[|rs|] == r && forall i :: 0 <= i < |rs| ==> (rs + [r])[i] == rs[i];
  }

  lemma AnsweredOneMore(d: Queue, d1: Queue, rs: seq<Lookup>, r: Lookup, now: int)
    requires AllAnswered(d, d1, rs, now)
    ensures AllAnswered(d, OnRequest(d1, r, now), rs + [r], now)
  {
    JoinsIff(d, d1, rs, r, now);
    CachedSnoc(rs, r, d.known);
    hide Admitted, Cached;
    if r.peer !in d1.known && TakenOn(d1, r) {
      OneMoreJoined(d, d1, Admitted(d, rs), r, now);
    } else {
      SameJoined(d, d1, OnRequest(d1, r, now), Admitted(d, rs), now);
    }
    hide Joined;
    Assoc(d.fulfilled, Cached(rs, d.known), if r.peer in d.known then [r] else []);
    assert d1.fulfilled + [] == d1.fulfilled;
  }

  lemma SameJoined(d: Queue, d1: Queue, d': Queue, admitted: seq<Lookup>, now: int)
    requires Joined(d, d1, admitted, now) && d'.timers == d1.timers && d'.queued == d1.queued
    ensures Joined(d, d', admitted, now)
  {
  }

  /** The queue and the timers once r has joined. */
  lemma OneMoreJoined(d: Queue, d1: Queue, before: seq<Lookup>, r: Lookup, now: int)
    requires r.peer !in d1.known && TakenOn(d1, r) && Joined(d, d1, before, now)
    ensures Joined(d, OnRequest(d1, r, now), before + [r], now)
  {
    var after := before + [r];
    assert after[..|before|] == before;
    forall p ensures Asks(after, p) <==> Asks(before, p) || r.peer == p { AsksSnoc(before, r, p); }
    hide Asks;
  }

  lemma {:induction false} RequestsAreAnswered(d: Queue, rs: seq<Lookup>, now: int)
    ensures AllAnswered(d, OnRequests(d, rs, now), rs, now)
    decreases |rs|
  {
    if rs == [] {
      assert d.fulfilled + [] == d.fulfilled;
    } else {
      var front, last := rs[..|rs| - 1], rs[|rs| - 1];
      assert rs == front + [last];
      RequestsAreAnswered(d, front, now);
      OnRequestsSnoc(d, front, last, now);
      AnsweredOneMore(d, OnRequests(d, front, now), front, last, now);
    }
  }

  function OnAllFound(d: Queue, found: seq<PeerId>, local: PeerId): Queue
    decreases |found|
  {
    if found == [] then d
    else OnAllFound(if found[0] == local then d else OnFound(d, found[0]), found[1..], local)
  }

  /**
   Exactly the found peers other than the local one become known and leave the queue; their lookups, and no
   others, are served, once each; timers stay.
   */
  ghost predicate AllFound(d: Queue, d': Queue, found: seq<PeerId>, local: PeerId) {
    && (forall p :: p in d'.known <==> p in d.known || (p in found && p != local))
    && (forall p :: p in d'.queued <==> p in d.queued && !(p in found && p != local))
    && (forall p :: p in d'.queued ==> d'.queued[p] == d.queued[p])
    && d'.timers == d.timers && d.fulfilled <= d'.fulfilled
    && (forall l: Lookup :: multiset(d'.fulfilled)[l] == multiset(d.fulfilled)[l] +
          if l.peer in found && l.peer != local && l.peer in d.queued && d.queued[l.peer] == l.sender then 1 else 0)
  }

  lemma FoundOneMore(d: Queue, d': Queue, found: seq<PeerId>, local: PeerId)
    requires found != []
    requires AllFound(if found[0] == local then d else OnFound(d, found[0]), d', found[1..], local)
    ensures AllFound(d, d', found, local)
  {
    assert found == [found[0]] + found[1..];
    var d1 := if found[0] == local then d else OnFound(d, found[0]);
    forall l: Lookup
      ensures multiset(d1.fulfilled)[l] == multiset(d.fulfilled)[l] +
        if l.peer == found[0] && found[0] != local && l.peer in d.queued && d.queued[l.peer] == l.sender then 1 else 0
    {
    }
  }

  lemma {:induction false} FoundPeersAreServed(d: Queue, found: seq<PeerId>, local: PeerId)
    ensures AllFound(d, OnAllFound(d, found, local), found, local)
    decreases |found|
  {
    if found != [] {
      FoundPeersAreServed(if found[0] == local then d else OnFound(d, found[0]), found[1..], local);
      FoundOneMore(d, OnAllFound(d, found, local), found, local);
    }
  }

  /** Between two timers of one draining: `fired` timers have fired, requests of `gone` peers are given up. */
  ghost predicate Draining(before: Queue, d: Queue, fired: multiset<Timer>, gone: set<PeerId>, now: int) {
    && d.known == before.known && d.fulfilled == before.fulfilled
    && before.timers == d.timers + fired && d.queued == before.queued - gone
    && (forall t :: t in fired ==> t.deadline <= now && t.peer in gone)
    && (forall p :: p in gone ==> Expired(before.timers, p, now))
  }

  lemma DrainStep(before: Queue, d: Queue, fired: multiset<Timer>, gone: set<PeerId>, now: int, t: Timer)
    requires Draining(before, d, fired, gone, now) && t in d.timers && t.deadline <= now
    ensures Draining(before, OnTimer(d, t), fired + multiset{t}, gone + {t.peer}, now)
  {
    assert t in before.timers;
    assert Expired(before.timers, t.peer, now);
  }

  lemma DrainEnd(before: Queue, d: Queue, fired: multiset<Timer>, gone: set<PeerId>, now: int)
    requires Draining(before, d, fired, gone, now) && !exists t :: t in d.timers && t.deadline <= now
    ensures forall t: Timer :: d.timers[t] == if t.deadline <= now then 0 else before.timers[t]
    ensures forall p: PeerId :: p in d.queued <==> p in before.queued && !Expired(before.timers, p, now)
  {
    forall t: Timer
      ensures d.timers[t] == if t.deadline <= now then 0 else before.timers[t]
    {
      assert before.timers[t] == d.timers[t] + fired[t];
      if t.deadline <= now { assert t !in d.timers; } else { assert t !in fired; }
    }
    forall p: PeerId
      ensures p in gone <==> Expired(before.timers, p, now)
    {
      if Expired(before.timers, p, now) {
        var t :| t in before.timers && t.peer == p && t.deadline <= now;
        assert before.timers[t] == d.timers[t] + fired[t];
        assert t !in d.timers;
        assert t in fired;
      }
    }
  }

  class Discovery {
    const local: PeerId
    var knownPeers: set<PeerId>
    var queuedRequests: map<PeerId, nat>
    var timeouts: multiset<Timer>
    var fulfilled: seq<Lookup>

    function Abs(): Queue
      reads this
    {
      Queue(knownPeers, queuedRequests, timeouts, fulfilled)
    }

    constructor (local: PeerId)
      ensures Abs() == EMPTY && Inv(Abs()) && this.local == local
    {
      this.local, knownPeers, queuedRequests, timeouts, fulfilled := local, {}, map[], multiset{}, [];
    }

    method PollResults(found: seq<PeerId>)
      modifies this
      ensures Abs() == OnAllFound(old(Abs()), found, local)
      ensures AllFound(old(Abs()), Abs(), found, local)
    {
      FoundPeersAreServed(Abs(), found, local);
      hide AllFound;
      for k := 0 to |found|
        invariant OnAllFound(Abs(), found[k..], local) == OnAllFound(old(Abs()), found, local)
      {
        assert found[k..][0] == found[k] && found[k..][1..] == found[k + 1..];
        var peer := found[k];
        if peer != local {
          if peer in queuedRequests {
            fulfilled := fulfilled + [Lookup(peer, queuedRequests[peer])];
            queuedRequests := queuedRequests - {peer};
          }
          knownPeers := knownPeers + {peer};
        }
      }
      assert found[|found|..] == [];
    }

    /** Drains the expired timers in any order; the outcome does not depend on the order. */
    method PollQueuedRequestsTimeouts(now: int)
      requires Inv(Abs())
      modifies this
      ensures Inv(Abs()) && knownPeers == old(knownPeers) && fulfilled == old(fulfilled)
      ensures forall t: Timer :: timeouts[t] == if t.deadline <= now then 0 else old(timeouts)[t]
      ensures forall p: PeerId :: p in queuedRequests <==> p in old(queuedRequests) && !Expired(old(timeouts), p, now)
      ensures forall p :: p in queuedRequests ==> queuedRequests[p] == old(queuedRequests)[p]
    {
      ghost var fired: multiset<Timer>, gone: set<PeerId> := multiset{}, {};
      while exists t :: t in timeouts && t.deadline <= now
        invariant Inv(Abs()) && Draining(old(Abs()), Abs(), fired, gone, now)
        decreases |timeouts|
      {
        var t :| t in timeouts && t.deadline <= now;
        TimerKeeps(Abs(), t);
        DrainStep(old(Abs()), Abs(), fired, gone, now, t);
        timeouts := timeouts - multiset{t};
        queuedRequests := queuedRequests - {t.peer};
        fired, gone := fired + multiset{t}, gone + {t.peer};
      }
      DrainEnd(old(Abs()), Abs(), fired, gone, now);
    }

    method PollRequests(requests: seq<Lookup>, now: int)
      requires Inv(Abs())
      modifies this
      ensures Abs() == OnRequests(old(Abs()), requests, now) && Inv(Abs())
      ensures AllAnswered(old(Abs()), Abs(), requests, now)
    {
      RequestsAreAnswered(Abs(), requests, now);
      hide AllAnswered;
      for k := 0 to |requests|
        invariant OnRequests(Abs(), requests[k..], now) == OnRequests(old(Abs()), requests, now)
        invariant Inv(Abs())
      {
        assert requests[k..][0] == requests[k] && requests[k..][1..] == requests[k + 1..];
        var r := requests[k];
        RequestKeeps(Abs(), r, now);
        if r.peer in knownPeers {
          fulfilled := fulfilled + [r];
        } else if r.peer !in queuedRequests && |timeouts| < MAX_QUEUED_REQUESTS {
          queuedRequests := queuedRequests[r.peer := r.sender];
          timeouts := timeouts + multiset{Timer(r.peer, now + QUEUE_TIME)};
        }
      }
      assert requests[|requests|..] == [];
    }
  }
}
