/** The endless supply of registry addresses (src/registries/remote.rs, `GetNextAddr`). */
module AddressResolver {
  import opened Common

  /** What one poll of the resolver stream yields; after its last event the stream has ended. */
  datatype Event = Resolved(addr: Address) | ResolveError | Pending

  datatype Polled = NotReady | Ready(item: Option<Address>)

  /** `rounds(k)` are the events of the k-th resolution; `resolves` logs when resolving was restarted. */
  datatype Resolver = Resolver(
    rounds: nat -> seq<Event>, stream: seq<Event>, wait: nat, deadline: int, created: int, resolves: seq<int>)
  {
    /** The moment from which the wait runs. */
    function LastResolve(): int { if resolves == [] then created else resolves[|resolves| - 1] }
  }

  function NewResolver(rounds: nat -> seq<Event>, wait: nat, now: int): Resolver {
    Resolver(rounds, rounds(0), wait, now + wait, now, [])
  }

  /** Starts all resolvers anew and re-arms the wait. */
  function Restart(g: Resolver, now: int): Resolver {
    g.(stream := g.rounds(|g.resolves| + 1), deadline := now + g.wait, resolves := g.resolves + [now])
  }

  /** One poll of the address stream at time `now`. */
  function Poll(g: Resolver, now: int): (Resolver, Polled)
    requires g.wait > 0
    decreases now >= g.deadline, |g.stream|
  {
    if g.stream == [] then
      if now >= g.deadline then Poll(Restart(g, now), now) else (g, NotReady)
    else
      var g1 := g.(stream := g.stream[1..]);
      match g.stream[0]
      case Resolved(addr) => (g1, Ready(Some(addr)))
      case Pending => (g1, NotReady)
      case ResolveError => Poll(g1, now)
  }

  /** Restarts are at least the wait apart, counted from the creation. */
  ghost predicate Spaced(g: Resolver) {
    && g.deadline == g.LastResolve() + g.wait
    && (g.resolves != [] ==> g.resolves[0] >= g.created + g.wait)
    && forall i :: 0 < i < |g.resolves| ==> g.resolves[i] >= g.resolves[i - 1] + g.wait
  }

  /**
   A poll never yields the end of the stream, restarts the resolvers at most once, and only if the wait has
   passed since the last restart.
   */
  lemma {:induction false} PollKeepsSpacing(g: Resolver, now: int)
    requires g.wait > 0 && Spaced(g)
    ensures var (g', r) := Poll(g, now);
      && Spaced(g') && g'.wait == g.wait && g'.created == g.created
      && (r.Ready? ==> r.item.Some?)
      && (g'.resolves == g.resolves || (g'.resolves == g.resolves + [now] && now >= g.LastResolve() + g.wait))
    decreases now >= g.deadline, |g.stream|
  {
    if g.stream == [] {
      if now >= g.deadline { PollKeepsSpacing(Restart(g, now), now); }
    } else if g.stream[0].ResolveError? {
      PollKeepsSpacing(g.(stream := g.stream[1..]), now);
    }
  }

  function PollAll(g: Resolver, times: seq<int>): Resolver
    requires g.wait > 0
    ensures PollAll(g, times).wait == g.wait
    decreases |times|
  {
    if times == [] then g else
    var g' := Poll(g, times[0]).0;
    KeepsWait(g, times[0]);
    PollAll(g', times[1..])
  }

  lemma {:induction false} KeepsWait(g: Resolver, now: int)
    requires g.wait > 0
    ensures Poll(g, now).0.wait == g.wait
    decreases now >= g.deadline, |g.stream|
  {
    if g.stream == [] {
      if now >= g.deadline { KeepsWait(Restart(g, now), now); }
    } else if g.stream[0].ResolveError? {
      KeepsWait(g.(stream := g.stream[1..]), now);
    }
  }

  lemma {:induction false} PollAllKeepsSpacing(g: Resolver, times: seq<int>)
    requires g.wait > 0 && Spaced(g)
    ensures Spaced(PollAll(g, times))
    decreases |times|
  {
    if times != [] {
      PollKeepsSpacing(g, times[0]);
      PollAllKeepsSpacing(Poll(g, times[0]).0, times[1..]);
    }
  }

  /** Over all runs, whatever the resolvers yield and whenever it is polled, restarts keep their distance. */
  lemma RestartsKeepTheirDistance(rounds: nat -> seq<Event>, wait: nat, now: int, times: seq<int>, i: nat)
    requires wait > 0
    requires 0 < i < |PollAll(NewResolver(rounds, wait, now), times).resolves|
    ensures var g := PollAll(NewResolver(rounds, wait, now), times); g.resolves[i] - g.resolves[i - 1] >= wait
  {
    PollAllKeepsSpacing(NewResolver(rounds, wait, now), times);
  }

  // ---------- The loop, also for a wait of zero ----------

  datatype Turn = Again(g: Resolver) | Done(g: Resolver, polled: Polled)

  /** One turn of the loop. */
  function TakeTurn(g: Resolver, now: int): Turn {
    if g.stream == [] then
      if now >= g.deadline then Again(Restart(g, now)) else Done(g, NotReady)
    else
      var g1 := g.(stream := g.stream[1..]);
      match g.stream[0]
      case Resolved(addr) => Done(g1, Ready(Some(addr)))
      case Pending => Done(g1, NotReady)
      case ResolveError => Again(g1)
  }

  /** At most n turns of the loop. */
  function Turns(g: Resolver, now: int, n: nat): Turn
    decreases n
  {
    if n == 0 then Again(g) else
    var t := TakeTurn(g, now);
    if t.Done? then t else Turns(t.g, now, n - 1)
  }

  predicate Quiet(events: seq<Event>) { forall i :: 0 <= i < |events| ==> events[i].ResolveError? }

  /**
   The loop comes to an end: the current resolution yields something, or the wait is not over, or a wait
   stops the loop after the next restart, or some later resolution yields something.
   */
  ghost predicate Ends(g: Resolver, now: int) {
    || g.wait > 0 || now < g.deadline || !Quiet(g.stream)
    || exists k :: k > |g.resolves| && !Quiet(g.rounds(k))
  }

  /** With a positive wait the turns lead to the outcome of `Poll`. */
  lemma {:induction false} TurnsReachPoll(g: Resolver, now: int) returns (n: nat)
    requires g.wait > 0
    ensures var (g', r) := Poll(g, now); Turns(g, now, n) == Done(g', r)
    decreases now >= g.deadline, |g.stream|
  {
    var t := TakeTurn(g, now);
    if t.Done? {
      n := 1;
    } else {
      n := TurnsReachPoll(t.g, now);
      n := n + 1;
    }
  }

  /** A quiet resolution runs to its end. */
  lemma {:induction false} QuietTurns(g: Resolver, now: int)
    requires Quiet(g.stream)
    ensures Turns(g, now, |g.stream|) == Again(g.(stream := []))
    decreases |g.stream|
  {
    if g.stream != [] {
      assert g.stream[0].ResolveError?;
      QuietTurns(g.(stream := g.stream[1..]), now);
    }
  }

  lemma {:induction false} TurnsAdd(g: Resolver, now: int, m: nat, n: nat)
    ensures var t := Turns(g, now, m);
      Turns(g, now, m + n) == (if t.Done? then t else Turns(t.g, now, n))
    decreases m
  {
    if m > 0 {
      var t := TakeTurn(g, now);
      if t.Again? { TurnsAdd(t.g, now, m - 1, n); }
    }
  }

  /** A resolution that yields something ends the loop. */
  lemma {:induction false} NoisyTurns(g: Resolver, now: int)
    requires !Quiet(g.stream)
    ensures Turns(g, now, |g.stream|).Done?
    decreases |g.stream|
  {
    if g.stream[0].ResolveError? { NoisyTurns(g.(stream := g.stream[1..]), now); }
  }

  /** Without a wait the loop restarts until some resolution yields something. */
  lemma {:induction false} RestartsUntilNoise(g: Resolver, now: int, k: nat) returns (n: nat)
    requires g.wait == 0 && now >= g.deadline && k > |g.resolves| && !Quiet(g.rounds(k))
    ensures Turns(g, now, n).Done?
    decreases k - |g.resolves|
  {
    if !Quiet(g.stream) {
      n := |g.stream|;
      NoisyTurns(g, now);
    } else {
      QuietTurns(g, now);
      var g1 := Restart(g.(stream := []), now);
      var more: nat;
      if k == |g.resolves| + 1 {
        more := |g1.stream|;
        NoisyTurns(g1, now);
      } else {
        more := RestartsUntilNoise(g1, now, k);
      }
      n := |g.stream| + (1 + more);
      TurnsAdd(g, now, |g.stream|, 1 + more);
    }
  }

  /** However many turns the loop takes, it finds only errors. */
  lemma {:induction false} SpinsForEver(g: Resolver, now: int, n: nat)
    requires !Ends(g, now)
    ensures Turns(g, now, n).Again?
    decreases n
  {
    if n > 0 {
      var t := TakeTurn(g, now);
      assert t.Again?;
      assert g.stream == [] ==> Quiet(g.rounds(|g.resolves| + 1));
      SpinsForEver(t.g, now, n - 1);
    }
  }

  /** A poll comes to an end exactly under the condition above; otherwise it spins. */
  lemma PollEndsIff(g: Resolver, now: int)
    ensures (exists n :: Turns(g, now, n).Done?) <==> Ends(g, now)
  {
    if Ends(g, now) {
      var n: nat;
      if g.wait > 0 {
        n := TurnsReachPoll(g, now);
      } else if !Quiet(g.stream) {
        n := |g.stream|;
        NoisyTurns(g, now);
      } else if now < g.deadline {
        n := |g.stream| + 1;
        QuietTurns(g, now);
        TurnsAdd(g, now, |g.stream|, 1);
      } else {
        var k :| k > |g.resolves| && !Quiet(g.rounds(k));
        n := RestartsUntilNoise(g, now, k);
      }
      assert Turns(g, now, n).Done?;
    } else {
      forall n: nat ensures !Turns(g, now, n).Done? { SpinsForEver(g, now, n); }
    }
  }

  /** The outcome does not depend on how many turns are allowed. */
  lemma OutcomeIsUnique(g: Resolver, now: int, m: nat, n: nat)
    requires Turns(g, now, m).Done? && Turns(g, now, n).Done?
    ensures Turns(g, now, m) == Turns(g, now, n)
  {
    if m <= n { TurnsAdd(g, now, m, n - m); } else { TurnsAdd(g, now, n, m - n); }
  }

  // ---------- Which addresses come out ----------

  /** The addresses among some events, in order. */
  function Addresses(events: seq<Event>): seq<Address> {
    if events == [] then []
    else (if events[0].Resolved? then [events[0].addr] else []) + Addresses(events[1..])
  }

  lemma {:induction false} AddressesAppend(events: seq<Event>, more: seq<Event>)
    ensures Addresses(events + more) == Addresses(events) + Addresses(more)
  {
    if events == [] {
      assert events + more == more;
    } else {
      var first := if events[0].Resolved? then [events[0].addr] else [];
      assert (events + more)[0] == events[0] && (events + more)[1..] == events[1..] + more;
      AddressesAppend(events[1..], more);
      assert Addresses(events + more) == first + Addresses(events[1..] + more);
      Assoc(first, Addresses(events[1..]), Addresses(more));
    }
  }

  /** The events of the first resolutions up to number k, one resolution after the other. */
  function AllRounds(rounds: nat -> seq<Event>, k: nat): seq<Event> {
    (if k == 0 then [] else AllRounds(rounds, k - 1)) + rounds(k)
  }

  /** All events of all resolutions started so far. */
  function Started(g: Resolver): seq<Event> { AllRounds(g.rounds, |g.resolves|) }

  /** What is left of the stream is the end of that. */
  predicate Intact(g: Resolver) {
    |g.stream| <= |Started(g)| && Started(g)[|Started(g)| - |g.stream|..] == g.stream
  }

  /** The events consumed so far. */
  function Consumed(g: Resolver): seq<Event>
    requires Intact(g)
  {
    Started(g)[..|Started(g)| - |g.stream|]
  }

  function Yields(t: Turn): seq<Address> {
    if t.Done? && t.polled.Ready? && t.polled.item.Some? then [t.polled.item.value] else []
  }

  lemma AddressesOne(e: Event)
    ensures Addresses([e]) == if e.Resolved? then [e.addr] else []
  {
    assert [e][1..] == [];
  }

  /** Taking the first event off the stream moves it to those consumed. */
  lemma ConsumeOne(g: Resolver)
    requires Intact(g) && g.stream != []
    ensures var g1 := g.(stream := g.stream[1..]); Intact(g1) && Consumed(g1) == Consumed(g) + [g.stream[0]]
  {
    hide AllRounds;
    var all := Started(g);
    var k := |all| - |g.stream|;
    assert all[k..][1..] == all[k + 1..] && all[k] == all[k..][0];
  }

  lemma ConsumeNone(g: Resolver, now: int)
    requires Intact(g) && g.stream == []
    ensures Intact(Restart(g, now)) && Consumed(Restart(g, now)) == Consumed(g)
  {
    var all, g1 := Started(g), Restart(g, now);
    assert Started(g1) == all + g1.stream;
    hide AllRounds;
  }

  /** One turn consumes one event or starts the next resolution, and yields exactly the address it consumed. */
  lemma TurnYieldsConsumed(g: Resolver, now: int)
    requires Intact(g)
    ensures var t := TakeTurn(g, now);
      Intact(t.g) && Addresses(Consumed(t.g)) == Addresses(Consumed(g)) + Yields(t)
  {
    if g.stream != [] {
      ConsumeOne(g);
      AddressesAppend(Consumed(g), [g.stream[0]]);
      AddressesOne(g.stream[0]);
    } else {
      ConsumeNone(g, now);
    }
    hide Intact, Consumed, Addresses, Restart;
    assert Addresses(Consumed(g)) + [] == Addresses(Consumed(g));
  }

  lemma {:induction false} TurnsYieldConsumed(g: Resolver, now: int, n: nat)
    requires Intact(g)
    ensures var t := Turns(g, now, n);
      Intact(t.g) && Addresses(Consumed(t.g)) == Addresses(Consumed(g)) + Yields(t)
    decreases n
  {
    if n > 0 {
      TurnYieldsConsumed(g, now);
      var t := TakeTurn(g, now);
      if t.Again? { TurnsYieldConsumed(t.g, now, n - 1); }
    }
  }

  /** A poll at time `now`, for as many turns as it gets. */
  datatype Call = Call(now: int, turns: nat)

  /** A whole run: the resolver after some polls, and all addresses they have yielded. */
  function RunCalls(g: Resolver, calls: seq<Call>): (Resolver, seq<Address>)
    decreases |calls|
  {
    if calls == [] then (g, []) else
    var t := Turns(g, calls[0].now, calls[0].turns);
    var (g', rest) := RunCalls(t.g, calls[1..]);
    (g', Yields(t) + rest)
  }

  lemma {:induction false} RunYieldsConsumed(g: Resolver, calls: seq<Call>)
    requires Intact(g)
    ensures var (g', yielded) := RunCalls(g, calls);
      Intact(g') && Addresses(Consumed(g')) == Addresses(Consumed(g)) + yielded
    decreases |calls|
  {
    if calls != [] {
      var t := Turns(g, calls[0].now, calls[0].turns);
      TurnsYieldConsumed(g, calls[0].now, calls[0].turns);
      RunYieldsConsumed(t.g, calls[1..]);
      Assoc(Addresses(Consumed(g)), Yields(t), RunCalls(t.g, calls[1..]).1);
    }
  }

  /**
   Over all runs of a new resolver, also with a wait of zero: the addresses yielded so far, followed by those
   that the current resolution still holds, are exactly the addresses of all resolutions from the first one
   on, in order. So nothing is skipped, repeated or invented.
   */
  lemma AddressesComeInOrder(rounds: nat -> seq<Event>, wait: nat, now: int, calls: seq<Call>)
    ensures var (g, yielded) := RunCalls(NewResolver(rounds, wait, now), calls);
      yielded + Addresses(g.stream) == Addresses(AllRounds(g.rounds, |g.resolves|))
    ensures RunCalls(NewResolver(rounds, wait, now), calls).0.rounds == rounds
  {
    assert NewResolver(rounds, wait, now).rounds == rounds;
    var g0 := NewResolver(rounds, wait, now);
    StartsIntact(rounds, wait, now);
    RunYieldsConsumed(g0, calls);
    RunKeepsRounds(g0, calls);
    hide NewResolver, RunCalls, Addresses, AllRounds;
    var (g, yielded) := RunCalls(g0, calls);
    ConsumedAndRest(g);
    hide Intact, Consumed;
    assert [] + yielded == yielded;
  }

  lemma ConsumedAndRest(g: Resolver)
    requires Intact(g)
    ensures Addresses(Started(g)) == Addresses(Consumed(g)) + Addresses(g.stream)
  {
    hide AllRounds;
    assert Started(g) == Consumed(g) + g.stream;
    AddressesAppend(Consumed(g), g.stream);
  }

  lemma StartsIntact(rounds: nat -> seq<Event>, wait: nat, now: int)
    ensures var g := NewResolver(rounds, wait, now); Intact(g) && Addresses(Consumed(g)) == []
  {
    var g := NewResolver(rounds, wait, now);
    assert Started(g) == [] + rounds(0) == g.stream;
    assert Consumed(g) == [];
  }

  lemma {:induction false} RunKeepsRounds(g: Resolver, calls: seq<Call>)
    ensures RunCalls(g, calls).0.rounds == g.rounds
    decreases |calls|
  {
    if calls != [] {
      TurnsKeepRounds(g, calls[0].now, calls[0].turns);
      RunKeepsRounds(Turns(g, calls[0].now, calls[0].turns).g, calls[1..]);
    }
  }

  lemma {:induction false} TurnsKeepRounds(g: Resolver, now: int, n: nat)
    ensures Turns(g, now, n).g.rounds == g.rounds
    decreases n
  {
    if n > 0 && TakeTurn(g, now).Again? { TurnsKeepRounds(TakeTurn(g, now).g, now, n - 1); }
  }

  /** What a resolution says first, apart from errors. */
  function FirstWord(events: seq<Event>): (e: Option<Event>)
    ensures e.None? <==> Quiet(events)
    ensures e.Some? ==> !e.value.ResolveError?
  {
    if events == [] then None else if events[0].ResolveError? then FirstWord(events[1..]) else Some(events[0])
  }

  function AnswerTo(e: Event): Polled { if e.Resolved? then Ready(Some(e.addr)) else NotReady }

  /** Which event a poll that ended has answered, if any. */
  ghost predicate Answers(g: Resolver, now: int, g': Resolver, r: Polled) {
    var before, after := |g.resolves|, |g'.resolves|;
    if before == after then
      var word := FirstWord(g.stream);
      if word.Some? then r == AnswerTo(word.value) else now < g.deadline && r == NotReady
    else
      && before < after && Quiet(g.stream) && now >= g.deadline
      && (forall k :: before < k < after ==> Quiet(g.rounds(k)))
      && (g.wait > 0 ==> after == before + 1)
      && var word := FirstWord(g.rounds(after));
         if word.Some? then r == AnswerTo(word.value) else g.wait > 0 && r == NotReady
  }

  /**
   A poll that ends answers the first event of the current resolution that is not an error; if only errors are
   left and the wait is over, that of the next resolution, and without a wait that of the first later one that
   has any. It is not ready only at a pending resolution or during the wait.
   */
  lemma {:induction false} PollAnswers(g: Resolver, now: int, n: nat)
    requires Turns(g, now, n).Done?
    ensures var t := Turns(g, now, n); Answers(g, now, t.g, t.polled)
    decreases n
  {
    var t := TakeTurn(g, now);
    if t.Again? {
      PollAnswers(t.g, now, n - 1);
      RestartsOnly(t.g, now, n - 1);
    }
  }

  lemma {:induction false} RestartsOnly(g: Resolver, now: int, n: nat)
    ensures var t := Turns(g, now, n);
      |g.resolves| <= |t.g.resolves| && (now < g.deadline ==> t.g.resolves == g.resolves)
    decreases n
  {
    if n > 0 && TakeTurn(g, now).Again? { RestartsOnly(TakeTurn(g, now).g, now, n - 1); }
  }

  /** With a wait of zero and resolvers that only fail, a poll does not end. */
  lemma ZeroWaitSpins(now: int, n: nat)
    ensures Turns(NewResolver(_ => [], 0, now), now, n).Again?
  {
    SpinsForEver(NewResolver(_ => [], 0, now), now, n);
  }

  class GetNextAddr {
    const rounds: nat -> seq<Event>
    const wait: nat
    const created: int
    var resolveAddrs: seq<Event>
    var deadline: int
    var resolves: seq<int>

    function Abs(): Resolver
      reads this
    {
      Resolver(rounds, resolveAddrs, wait, deadline, created, resolves)
    }

    constructor (rounds: nat -> seq<Event>, wait: nat, now: int)
      ensures Abs() == NewResolver(rounds, wait, now)
    {
      this.rounds, this.wait, created := rounds, wait, now;
      resolveAddrs, deadline, resolves := rounds(0), now + wait, [];
    }

    /** Every poll that comes to an end, whatever the wait is. */
    method PollNext(now: int) returns (r: Polled)
      requires Ends(Abs(), now)
      modifies this
      ensures exists n :: Turns(old(Abs()), now, n) == Done(Abs(), r)
      ensures Answers(old(Abs()), now, Abs(), r)
      ensures wait > 0 ==> (Abs(), r) == Poll(old(Abs()), now)
      ensures r.Ready? ==> r.item.Some?
    {
      PollEndsIff(Abs(), now);
      ghost var n: nat :| Turns(Abs(), now, n).Done?;
      ghost var left := n;
      PollAnswers(Abs(), now, n);
      if wait > 0 {
        ghost var m := TurnsReachPoll(Abs(), now);
        OutcomeIsUnique(Abs(), now, m, n);
      }
      while true
        invariant Turns(Abs(), now, left) == Turns(old(Abs()), now, n)
        decreases left
      {
        left := left - 1;
        if resolveAddrs == [] {
          if now < deadline {
            return NotReady;
          }
          resolveAddrs := rounds(|resolves| + 1);
          deadline, resolves := now + wait, resolves + [now];
        } else {
          var e := resolveAddrs[0];
          resolveAddrs := resolveAddrs[1..];
          match e {
            case Resolved(addr) => return Ready(Some(addr));
            case Pending => return NotReady;
            case ResolveError =>
          }
        }
      }
    }
  }
}
