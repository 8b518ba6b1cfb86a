/** The Python build_info ledger: tuples as keys, and register and roll back as
    lock-protected steps taken by any number of installers in any order. */
module BuildInfoOwnership {
  import opened BuildInfo

  class PyBuildInfo {
    var owned: set<Labels>
    var samples: map<Labels, real>

    ghost function View(): Ledger<Labels>
      reads this
    {
      Ledger(owned, samples)
    }

    constructor ()
      ensures View() == Ledger({}, map[])
    {
      owned, samples := {}, map[];
    }

    /** One lock-protected step. */
    method Register(l: Labels) returns (wasNew: bool)
      modifies this
      ensures wasNew <==> l !in old(owned)
      ensures View() == Registered(old(View()), l, l)
    {
      wasNew := l !in owned;
      if wasNew {
        owned := owned + {l};
      }
      samples := samples[l := 1.0];
    }

    /** One lock-protected step. */
    method UnregisterIfOwned(l: Labels, wasNew: bool)
      modifies this
      ensures View() == UnregisteredIfOwned(old(View()), l, l, wasNew)
    {
      if !wasNew {
        return;
      }
      owned := owned - {l};
      samples := samples - {l};
    }
  }

  /** What a registration hands its caller, and whether it was used to roll back. */
  datatype Token = Token(labels: Labels, wasNew: bool, spent: bool)

  datatype Step = Register(labels: Labels) | Rollback(token: nat)

  /** The ledger and every token handed out so far, in order. */
  datatype State = State(ledger: Ledger<Labels>, tokens: seq<Token>)

  const START := State(Ledger({}, map[]), [])

  /** A rollback spends a token that was handed out and is not spent yet. */
  predicate Enabled(s: State, step: Step) {
    step.Rollback? ==> step.token < |s.tokens| && !s.tokens[step.token].spent
  }

  function Next(s: State, step: Step): State
    requires Enabled(s, step)
  {
    match step
    case Register(l) =>
      State(Registered(s.ledger, l, l), s.tokens + [Token(l, l !in s.ledger.owned, false)])
    case Rollback(i) =>
      var t := s.tokens[i];
      State(UnregisteredIfOwned(s.ledger, t.labels, t.labels, t.wasNew), s.tokens[i := t.(spent := true)])
  }

  predicate ValidRun(s: State, run: seq<Step>)
    decreases |run|
  {
    run == [] || (Enabled(s, run[0]) && ValidRun(Next(s, run[0]), run[1..]))
  }

  function Run(s: State, run: seq<Step>): State
    requires ValidRun(s, run)
    decreases |run|
  {
    if run == [] then s else Run(Next(s, run[0]), run[1..])
  }

  /** The unspent tokens that created the sample for l. */
  function Creators(tokens: seq<Token>, l: Labels): set<nat> {
    set i: nat | i < |tokens| && tokens[i].labels == l && tokens[i].wasNew && !tokens[i].spent
  }

  ghost predicate OwnedBy(s: State, l: Labels) {
    && (l in s.ledger.owned <==> l in s.ledger.samples)
    && (l in s.ledger.samples ==> s.ledger.samples[l] == 1.0)
    && (l in s.ledger.owned ==> exists i :: Creators(s.tokens, l) == {i})
    && (l !in s.ledger.owned ==> Creators(s.tokens, l) == {})
  }

  lemma NextKeepsOwnership(s: State, step: Step, l: Labels)
    requires Enabled(s, step) && OwnedBy(s, l)
    ensures OwnedBy(Next(s, step), l)
  {
    var s' := Next(s, step);
    match step
    case Register(l') =>
      if l == l' && l !in s.ledger.owned {
        assert Creators(s'.tokens, l) == {|s.tokens|};
      } else {
        assert Creators(s'.tokens, l) == Creators(s.tokens, l);
      }
    case Rollback(i) =>
      var t := s.tokens[i];
      if t.wasNew && t.labels == l {
        assert i in Creators(s.tokens, l);
        assert forall j <- Creators(s'.tokens, l) :: j in Creators(s.tokens, l) && j != i;
      } else {
        assert Creators(s'.tokens, l) == Creators(s.tokens, l);
      }
  }

  lemma {:induction false} RunKeepsOwnership(s: State, run: seq<Step>, l: Labels)
    requires ValidRun(s, run) && OwnedBy(s, l)
    ensures OwnedBy(Run(s, run), l)
    decreases |run|
  {
    if run != [] {
      NextKeepsOwnership(s, run[0], l);
      RunKeepsOwnership(Next(s, run[0]), run[1..], l);
    }
  }

  /** In every interleaving of registrations and rollbacks, a tuple is owned iff
      its sample is present with value 1 iff exactly one unspent creator token
      exists for it. */
  lemma OwnershipInvariant(run: seq<Step>, l: Labels)
    requires ValidRun(START, run)
    ensures OwnedBy(Run(START, run), l)
  {
    assert Creators(START.tokens, l) == {};
    RunKeepsOwnership(START, run, l);
  }

  /** A creator's sample survives whatever the others register and roll back. */
  lemma CreatorSampleSurvives(run: seq<Step>, i: nat)
    requires ValidRun(START, run)
    requires var tokens := Run(START, run).tokens; i < |tokens| && tokens[i].wasNew && !tokens[i].spent
    ensures var s := Run(START, run);
            s.tokens[i].labels in s.ledger.samples && s.ledger.samples[s.tokens[i].labels] == 1.0
  {
    var s := Run(START, run);
    OwnershipInvariant(run, s.tokens[i].labels);
    assert i in Creators(s.tokens, s.tokens[i].labels);
  }

  /** Why a token may be spent only once: using a spent creator token again
      changes the ledger exactly when another creator of the same tuple is
      still live, and then it removes that creator's sample. */
  lemma DoubleSpendExactly(run: seq<Step>, i: nat)
    requires ValidRun(START, run)
    requires var tokens := Run(START, run).tokens; i < |tokens| && tokens[i].wasNew && tokens[i].spent
    ensures var s := Run(START, run);
            var l := s.tokens[i].labels;
            var again := UnregisteredIfOwned(s.ledger, l, l, true);
            && (again != s.ledger <==> Creators(s.tokens, l) != {})
            && l !in again.samples
  {
    var s := Run(START, run);
    var l := s.tokens[i].labels;
    OwnershipInvariant(run, l);
    if l !in s.ledger.owned {
      assert s.ledger.owned - {l} == s.ledger.owned && s.ledger.samples - {l} == s.ledger.samples;
    }
  }
}
