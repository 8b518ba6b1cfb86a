/** trackJob: each wrapped call records one sample, whatever its thenable does. */
module Jobs {
  import opened Wrappers

  datatype Outcome = Success | Error

  /** What can happen to a wrapped call, by the place in the wrapper it reaches:
      a plain return, an exception from the function or from then() itself, or
      one of the two callbacks passed to then(). */
  datatype Signal = Returned | Threw | Fulfilled | Rejected

  function OutcomeOf(signal: Signal): Outcome {
    match signal
    case Returned => Success
    case Fulfilled => Success
    case Threw => Error
    case Rejected => Error
  }

  /** jobs_total and the histogram's sample count, by outcome. */
  datatype Totals = Totals(jobs: map<Outcome, nat>, observed: map<Outcome, nat>)

  function CountOf(m: map<Outcome, nat>, o: Outcome): nat {
    if o in m then m[o] else 0
  }

  function Bumped(m: map<Outcome, nat>, o: Outcome): map<Outcome, nat> {
    m[o := CountOf(m, o) + 1]
  }

  /** settled: the calls whose flag is set. */
  datatype State = State(settled: set<nat>, totals: Totals)

  const START := State({}, Totals(map[], map[]))

  datatype Event = Event(call: nat, signal: Signal)

  function Next(s: State, e: Event): State {
    if e.call in s.settled then s
    else
      var o := OutcomeOf(e.signal);
      State(s.settled + {e.call}, Totals(Bumped(s.totals.jobs, o), Bumped(s.totals.observed, o)))
  }

  function Run(events: seq<Event>): State {
    if events == [] then START else Next(Run(events[..|events| - 1]), events[|events| - 1])
  }

  class JobTracker {
    var jobs: map<Outcome, nat>
    var observed: map<Outcome, nat>
    var settled: set<nat>

    ghost function View(): State
      reads this
    {
      State(settled, Totals(jobs, observed))
    }

    constructor ()
      ensures View() == START
    {
      jobs, observed, settled := map[], map[], {};
    }

    method Record(outcome: Outcome)
      modifies `jobs, `observed
      ensures jobs == Bumped(old(jobs), outcome) && observed == Bumped(old(observed), outcome)
    {
      jobs := jobs[outcome := CountOf(jobs, outcome) + 1];
      observed := observed[outcome := CountOf(observed, outcome) + 1];
    }

    /** What each of the wrapper's four exits does with its call's flag. */
    method Settle(call: nat, signal: Signal)
      modifies this
      ensures View() == Next(old(View()), Event(call, signal))
    {
      if call !in settled {
        settled := settled + {call};
        match signal {
          case Returned => Record(Success);
          case Fulfilled => Record(Success);
          case Rejected => Record(Error);
          case Threw => Record(Error);
        }
      }
    }
  }

  /** A call succeeds by a plain return or a fulfilled promise, and not otherwise. */
  predicate Means(signal: Signal, o: Outcome) {
    o == Success <==> signal in {Returned, Fulfilled}
  }

  /** The calls whose first signal in the run meant outcome o. */
  function FirstSettled(events: seq<Event>, o: Outcome): set<nat> {
    set i: nat | i < |events| && Means(events[i].signal, o) && IsFirst(events, i) :: events[i].call
  }

  predicate IsFirst(events: seq<Event>, i: nat)
    requires i < |events|
  {
    forall j | 0 <= j < i :: events[j].call != events[i].call
  }

  function Callers(events: seq<Event>): set<nat> {
    set e <- events :: e.call
  }

  lemma FirstSettledStep(events: seq<Event>, e: Event, o: Outcome)
    ensures FirstSettled(events + [e], o) ==
            FirstSettled(events, o) + if e.call !in Callers(events) && Means(e.signal, o) then {e.call} else {}
    ensures Callers(events + [e]) == Callers(events) + {e.call}
    ensures e.call !in Callers(events) ==> e.call !in FirstSettled(events, o)
  {
    var all := events + [e];
    forall c <- FirstSettled(events, o) ensures c in FirstSettled(all, o) {
      var i: nat :| i < |events| && Means(events[i].signal, o) && IsFirst(events, i) && events[i].call == c;
      assert all[i] == events[i] && IsFirst(all, i);
    }
    if e.call !in Callers(events) {
      assert all[|events|] == e && IsFirst(all, |events|);
    }
    forall c <- FirstSettled(all, o)
      ensures c in FirstSettled(events, o) || (c == e.call && e.call !in Callers(events) && Means(e.signal, o))
    {
      var i: nat :| i < |all| && Means(all[i].signal, o) && IsFirst(all, i) && all[i].call == c;
      if i < |events| {
        assert forall j | 0 <= j <= i :: events[j] == all[j];
        assert IsFirst(events, i);
      } else {
        forall x <- events ensures x.call != c {
          var j :| 0 <= j < |events| && events[j] == x;
          assert all[j] == x;
        }
      }
    }
    forall x <- all ensures x in events || x == e {}
    forall x <- events ensures x in all {}
  }

  /** For any number of overlapping calls, each signalled in any way and any
      number of times: every call that settles adds exactly one sample, under
      the outcome of its first signal, and jobs_total agrees with the histogram. */
  lemma {:induction false} ExactlyOnce(events: seq<Event>, o: Outcome)
    ensures var s := Run(events);
            && s.settled == Callers(events)
            && CountOf(s.totals.jobs, o) == |FirstSettled(events, o)|
            && s.totals.observed == s.totals.jobs
  {
    if events == [] {
      assert FirstSettled(events, o) == {};
    } else {
      var init, e := events[..|events| - 1], events[|events| - 1];
      assert events == init + [e];
      ExactlyOnce(init, o);
      FirstSettledStep(init, e, o);
      NextCounts(Run(init), e, o);
      assert Run(events) == Next(Run(init), e);
    }
  }

  lemma NextCounts(s: State, e: Event, o: Outcome)
    requires s.totals.observed == s.totals.jobs
    ensures var s' := Next(s, e);
            && s'.totals.observed == s'.totals.jobs && s'.settled == s.settled + {e.call}
            && CountOf(s'.totals.jobs, o) ==
               CountOf(s.totals.jobs, o) + if e.call !in s.settled && Means(e.signal, o) then 1 else 0
  {
  }

  lemma {:induction false} OutcomesPartition(events: seq<Event>)
    ensures FirstSettled(events, Success) + FirstSettled(events, Error) == Callers(events)
    ensures FirstSettled(events, Success) !! FirstSettled(events, Error)
  {
    if events != [] {
      var init, e := events[..|events| - 1], events[|events| - 1];
      assert events == init + [e];
      OutcomesPartition(init);
      FirstSettledStep(init, e, Success);
      FirstSettledStep(init, e, Error);
    }
  }

  /** All samples together are as many as the calls that settled. */
  lemma SamplesAreCalls(events: seq<Event>)
    ensures var jobs := Run(events).totals.jobs;
            CountOf(jobs, Success) + CountOf(jobs, Error) == |Callers(events)|
  {
    ExactlyOnce(events, Success);
    ExactlyOnce(events, Error);
    OutcomesPartition(events);
  }
}
