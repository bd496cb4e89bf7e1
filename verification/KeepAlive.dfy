/**
 Pings, pongs and the pong deadline of the connection to a registry provider (src/registries/remote.rs,
 `OutgoingStream`).

 Time is an integer. The ping timer ticks every `period`; a poll handles at most one tick, and a tick that
 was just handled leaves the timer unarmed until the next poll finds it not ready. Within one poll the
 deadline is checked before the messages are handled.
 */
module KeepAlive {
  import opened Common

  /** `nextTick` and `deadline` are when the ping interval and the pong timeout elapse. */
  datatype Timers = Timers(period: nat, nextTick: int, tickArmed: bool, deadline: int)

  function NewTimers(period: nat, now: int): Timers { Timers(period, now, false, now + 3 * period) }

  datatype Beat = Beat(ping: bool, timeout: bool)

  /** `poll_ping_and_pong` at time `now`. */
  function PollTimers(t: Timers, now: int): (Timers, Beat) {
    var ping := now >= t.nextTick;
    var t' := if ping then t.(nextTick := t.nextTick + t.period, tickArmed := false) else t.(tickArmed := true);
    (t', Beat(ping, now >= t.deadline))
  }

  function OnPong(t: Timers, now: int): Timers { t.(deadline := now + 3 * t.period) }

  class PingPong {
    const period: nat
    var nextTick: int
    var tickArmed: bool
    var deadline: int

    function Abs(): Timers
      reads this
    {
      Timers(period, nextTick, tickArmed, deadline)
    }

    constructor (period: nat, now: int)
      ensures Abs() == NewTimers(period, now)
    {
      this.period, nextTick, tickArmed, deadline := period, now, false, now + 3 * period;
    }

    method PollPingAndPong(now: int) returns (beat: Beat)
      modifies this
      ensures (Abs(), beat) == PollTimers(old(Abs()), now)
    {
      var ping := false;
      if now >= nextTick {
        nextTick, tickArmed, ping := nextTick + period, false, true;
      } else {
        tickArmed := true;
      }
      beat := Beat(ping, now >= deadline);
    }

    /** A reset deadline never lies in the past, so the `panic!` behind it is not reached. */
    method HandlePong(now: int)
      requires period > 0
      modifies this
      ensures Abs() == OnPong(old(Abs()), now) && deadline > now
    {
      deadline := now + 3 * period;
    }
  }

  // ---------- Runs in time ----------

  /** `pings` are the send times of unanswered pings, oldest first; `lastPong` starts at the creation. */
  datatype State = State(t: Timers, now: int, pings: seq<int>, lastPong: int, timedOut: bool)

  /** `Wait` lets time pass; `Poll` polls the connection with so many answers to earlier pings ready. */
  datatype Event = Wait(until: int) | Poll(pongs: nat)

  function PollConnection(s: State, pongs: nat): State
    requires pongs <= |s.pings|
  {
    var (t, beat) := PollTimers(s.t, s.now);
    var pings := if beat.ping then s.pings + [s.now] else s.pings;
    if beat.timeout then s.(t := t, pings := pings, timedOut := true)
    else if pongs == 0 then s.(t := t, pings := pings)
    else s.(t := OnPong(t, s.now), pings := pings[pongs..], lastPong := s.now)
  }

  /** The connection right after its first poll, which happens when it is created. */
  function Start(period: nat, now: int): State {
    PollConnection(State(NewTimers(period, now), now, [], now, false), 0)
  }

  /**
   Time may pass up to the next moment at which the connection is due: an armed tick, the pong deadline, or the
   answer to the oldest ping, which takes at most `delay`.
   */
  predicate Due(s: State, delay: nat, until: int) {
    && s.now <= until
    && (s.t.tickArmed ==> until <= s.t.nextTick)
    && until <= s.t.deadline
    && (s.pings != [] ==> until <= s.pings[0] + delay)
  }

  predicate Enabled(s: State, delay: nat, e: Event) {
    match e
    case Wait(until) => Due(s, delay, until)
    case Poll(pongs) => pongs <= |s.pings| && !s.timedOut
  }

  function Step(s: State, e: Event): State
    requires e.Poll? ==> e.pongs <= |s.pings|
  {
    if e.Wait? then s.(now := e.until) else PollConnection(s, e.pongs)
  }

  predicate IsRun(s: State, delay: nat, events: seq<Event>)
    decreases |events|
  {
    events != [] ==> Enabled(s, delay, events[0]) && IsRun(Step(s, events[0]), delay, events[1..])
  }

  function Run(s: State, delay: nat, events: seq<Event>): State
    requires IsRun(s, delay, events)
    decreases |events|
  {
    if events == [] then s else Run(Step(s, events[0]), delay, events[1..])
  }

  // ---------- Main results ----------

  /** Either a ping is out that was sent in time, or the timer is armed to send one in time. */
  predicate Alive(s: State) {
    && !s.timedOut && s.lastPong <= s.now < s.t.deadline == s.lastPong + 3 * s.t.period
    && s.t.nextTick <= s.now + s.t.period
    && (forall i :: 0 <= i < |s.pings| ==> s.pings[i] <= s.now)
    && (s.pings != [] ==> s.pings[0] <= s.lastPong + s.t.period)
    && (s.pings == [] ==> s.t.tickArmed && s.now <= s.t.nextTick <= s.lastPong + s.t.period)
  }

  lemma StepKeepsAlive(s: State, delay: nat, e: Event)
    requires s.t.period > 0 && delay < 2 * s.t.period && Alive(s) && Enabled(s, delay, e)
    ensures Alive(Step(s, e)) && Step(s, e).t.period == s.t.period
  {
  }

  lemma {:induction false} RunKeepsAlive(s: State, delay: nat, events: seq<Event>)
    requires s.t.period > 0 && delay < 2 * s.t.period && Alive(s) && IsRun(s, delay, events)
    ensures Alive(Run(s, delay, events))
    decreases |events|
  {
    if events != [] {
      StepKeepsAlive(s, delay, events[0]);
      RunKeepsAlive(Step(s, events[0]), delay, events[1..]);
    }
  }

  /** Some run ends in a timeout. */
  ghost predicate CanTimeOut(period: nat, start: int, delay: nat) {
    exists events :: IsRun(Start(period, start), delay, events) && Run(Start(period, start), delay, events).timedOut
  }

  /** The connection never times out exactly if every ping is answered in less than two periods. */
  lemma NeverTimesOutIffFastEnough(period: nat, start: int, delay: nat)
    requires period > 0
    ensures !CanTimeOut(period, start, delay) <==> delay < 2 * period
  {
    if delay < 2 * period {
      forall events | IsRun(Start(period, start), delay, events)
        ensures !Run(Start(period, start), delay, events).timedOut
      {
        RunKeepsAlive(Start(period, start), delay, events);
      }
    } else {
      var events := SlowRun(period, start, delay);
    }
  }

  /** The first ping is answered at once, the second one after two periods: just too late. */
  lemma SlowRun(period: nat, start: int, delay: nat) returns (events: seq<Event>)
    requires period > 0 && delay >= 2 * period
    ensures IsRun(Start(period, start), delay, events) && Run(Start(period, start), delay, events).timedOut
  {
    var e1, e2, e3, e4, e5 := Poll(1), Wait(start + period), Poll(0), Wait(start + 3 * period), Poll(1);
    var s0 := Start(period, start);
    var s1 := Step(s0, e1);
    var s2 := Step(s1, e2);
    var s3 := Step(s2, e3);
    var s4 := Step(s3, e4);
    var s5 := Step(s4, e5);
    assert s0.pings == [start] && s1.pings == [] && s3.pings == [start + period] && s5.timedOut;
    RunCons(s4, delay, e5, []);
    RunCons(s3, delay, e4, [e5]);
    RunCons(s2, delay, e3, [e4] + [e5]);
    RunCons(s1, delay, e2, [e3] + ([e4] + [e5]));
    RunCons(s0, delay, e1, [e2] + ([e3] + ([e4] + [e5])));
    events := [e1] + ([e2] + ([e3] + ([e4] + [e5])));
    assert [e5] + [] == [e5];
  }

  lemma RunCons(s: State, delay: nat, e: Event, rest: seq<Event>)
    requires Enabled(s, delay, e) && IsRun(Step(s, e), delay, rest)
    ensures IsRun(s, delay, [e] + rest) && Run(s, delay, [e] + rest) == Run(Step(s, e), delay, rest)
  {
    assert ([e] + rest)[0] == e && ([e] + rest)[1..] == rest;
  }

  /** The deadline is always three periods after the last pong. */
  predicate DeadlineFollowsPong(s: State) {
    s.t.deadline == s.lastPong + 3 * s.t.period && (s.timedOut ==> s.now >= s.t.deadline)
  }

  lemma {:induction false} RunKeepsDeadline(s: State, delay: nat, events: seq<Event>)
    requires DeadlineFollowsPong(s) && IsRun(s, delay, events)
    ensures DeadlineFollowsPong(Run(s, delay, events)) && Run(s, delay, events).t.period == s.t.period
    decreases |events|
  {
    if events != [] { RunKeepsDeadline(Step(s, events[0]), delay, events[1..]); }
  }

  /** However slow the other side: a timeout means that no pong was handled for three periods. */
  lemma TimeoutMeansSilence(period: nat, start: int, delay: nat, events: seq<Event>)
    requires period > 0 && IsRun(Start(period, start), delay, events)
    ensures var s := Run(Start(period, start), delay, events); s.timedOut ==> s.now - s.lastPong >= 3 * period
  {
    RunKeepsDeadline(Start(period, start), delay, events);
  }

  /** The next tick lies a whole number of periods after the start, and so many pings were sent. */
  ghost predicate OnGrid(s: State, start: int, sent: nat) { s.t.nextTick == start + sent * s.t.period }

  /** How many pings the polls of a run send. */
  function PingsSent(s: State, delay: nat, events: seq<Event>): nat
    requires IsRun(s, delay, events)
    decreases |events|
  {
    if events == [] then 0 else
    (if events[0].Poll? && s.now >= s.t.nextTick then 1 else 0) + PingsSent(Step(s, events[0]), delay, events[1..])
  }

  lemma {:induction false} RunStaysOnGrid(s: State, delay: nat, events: seq<Event>, start: int, sent: nat)
    requires OnGrid(s, start, sent) && IsRun(s, delay, events)
    ensures OnGrid(Run(s, delay, events), start, sent + PingsSent(s, delay, events))
    decreases |events|
  {
    if events != [] {
      var one := if events[0].Poll? && s.now >= s.t.nextTick then 1 else 0;
      assert (sent + 1) * s.t.period == sent * s.t.period + s.t.period;
      RunStaysOnGrid(Step(s, events[0]), delay, events[1..], start, sent + one);
    }
  }

  /** However late the polls are, ping number k belongs to time `start + k * period`: no tick is skipped. */
  lemma NoTickIsSkipped(period: nat, start: int, delay: nat, events: seq<Event>)
    requires IsRun(Start(period, start), delay, events)
    ensures var s0 := Start(period, start);
      Run(s0, delay, events).t.nextTick == start + (1 + PingsSent(s0, delay, events)) * period
  {
    RunStaysOnGrid(Start(period, start), delay, events, start, 1);
    RunKeepsPeriod(Start(period, start), delay, events);
  }

  lemma {:induction false} RunKeepsPeriod(s: State, delay: nat, events: seq<Event>)
    requires IsRun(s, delay, events)
    ensures Run(s, delay, events).t.period == s.t.period
    decreases |events|
  {
    if events != [] { RunKeepsPeriod(Step(s, events[0]), delay, events[1..]); }
  }
}
