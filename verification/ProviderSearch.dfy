/** Asking all registry providers for a peer (src/registry.rs, `SearchRemoteRegistries`). */
module ProviderSearch {
  import opened Common

  /** `Positive` stands for the three kinds of finding a peer. */
  datatype Answer = Positive(what: nat) | NotFound

  /** How a provider's future completes. */
  datatype Outcome = Failed | Answered(answer: Answer)

  predicate Negative(o: Outcome) { o == Failed || o == Answered(NotFound) }

  datatype Polled = NotReady | Ready(answer: Answer)

  function Indices(n: nat): (r: set<nat>)
    ensures forall i: nat :: i in r <==> i < n
  {
    if n == 0 then {} else Indices(n - 1) + {n - 1}
  }

  class SearchRemoteRegistries {
    /** What each provider will say. */
    const outcomes: seq<Outcome>
    /** The providers that have not answered yet. */
    var futures: set<nat>

    /** All answers so far were negative. */
    ghost predicate Valid()
      reads this
    {
      forall i :: 0 <= i < |outcomes| && i !in futures ==> Negative(outcomes[i])
    }

    predicate InRange()
      reads this
    {
      forall i :: i in futures ==> i < |outcomes|
    }

    constructor (outcomes: seq<Outcome>)
      ensures this.outcomes == outcomes && Valid() && InRange()
      ensures futures == Indices(|outcomes|)
    {
      this.outcomes := outcomes;
      futures := Indices(|outcomes|);
    }

    /** `complete` are the providers whose futures have completed; they are taken in any order. */
    method Poll(complete: set<nat>) returns (r: Polled)
      requires Valid() && InRange()
      modifies this
      ensures InRange() && futures <= old(futures)
      ensures r.NotReady? ==> Valid() && futures == old(futures) - complete && futures != {}
      ensures r == Ready(NotFound) ==> forall i :: 0 <= i < |outcomes| ==> Negative(outcomes[i])
      ensures r.Ready? && r.answer.Positive? ==>
        exists i :: i in complete && i in old(futures) && outcomes[i] == Answered(r.answer)
    {
      while true
        invariant Valid() && InRange() && old(futures) - complete <= futures <= old(futures)
        decreases futures
      {
        if futures == {} {
          return Ready(NotFound);
        }
        var ready := futures * complete;
        if ready == {} {
          assert forall i :: i in futures ==> i !in complete by {
            assert forall i :: i in futures && i in complete ==> i in ready;
          }
          return NotReady;
        }
        var i :| i in ready;
        futures := futures - {i};
        match outcomes[i] {
          case Failed =>
          case Answered(NotFound) =>
          case Answered(answer) => return Ready(answer);
        }
      }
    }
  }

  /**
   A whole search under any schedule of completions. `NotFound` is reported only if every provider failed
   or answered so; any other answer is some provider's own. Without a result, every provider that completed
   so far was negative.
   */
  method Search(outcomes: seq<Outcome>, schedule: seq<set<nat>>) returns (result: Option<Answer>)
    ensures result == Some(NotFound) ==> forall i :: 0 <= i < |outcomes| ==> Negative(outcomes[i])
    ensures result.Some? && result.value.Positive? ==> Answered(result.value) in outcomes
    ensures result.None? ==>
      forall k, i :: 0 <= k < |schedule| && i in schedule[k] && i < |outcomes| ==> Negative(outcomes[i])
  {
    var search := new SearchRemoteRegistries(outcomes);
    for k := 0 to |schedule|
      invariant search.outcomes == outcomes && search.Valid() && search.InRange() && fresh(search)
      invariant forall j, i :: 0 <= j < k && i in schedule[j] && i < |outcomes| ==> i !in search.futures
    {
      ghost var before := search.futures;
      var r := search.Poll(schedule[k]);
      if r.Ready? {
        return Some(r.answer);
      }
    }
    return None;
  }
}
