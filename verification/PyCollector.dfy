/** The Python process-collector singleton. Registering and restoring each hold
    the lock, so any number of installers interleave as atomic steps; identity
    decides who may undo what. */
module PyCollector {
  import opened Wrappers

  /** A collector object: its identity, and the service it reports. */
  datatype Collector = Collector(id: nat, service: string)

  /** What registering did. */
  datatype Undo =
    | Reused(installed: Collector)
    | FreshlyRegistered(installed: Collector)
    | ServiceSwap(installed: Collector, prior: Collector)

  /** live is the singleton, registry what the client library scrapes. */
  datatype State = State(registry: set<Collector>, live: Option<Collector>, nextId: nat)

  function Holds(live: Option<Collector>): set<Collector> {
    if live.Some? then {live.value} else {}
  }

  /** The registry holds exactly the singleton. */
  ghost predicate Good(s: State) {
    s.registry == Holds(s.live)
  }

  function WithLive(s: State, live: Option<Collector>): State {
    s.(registry := Holds(live), live := live)
  }

  function Register(s: State, service: string): (State, Undo) {
    var fresh_ := Collector(s.nextId, service);
    match s.live
    case Some(c) =>
      if c.service == service then (s, Reused(c))
      else (WithLive(s, Some(fresh_)).(nextId := s.nextId + 1), ServiceSwap(fresh_, c))
    case None => (WithLive(s, Some(fresh_)).(nextId := s.nextId + 1), FreshlyRegistered(fresh_))
  }

  /** Whoever registers gets a live collector that reports its own service, the one
      there was if that did already, and a new one otherwise. */
  lemma RegisterReports(s: State, service: string)
    ensures var (s', undo) := Register(s, service);
            && s'.live.Some? && s'.live.value.service == service && undo.installed == s'.live.value
            && (s.live.Some? && s.live.value.service == service ==> s' == s)
            && (!(s.live.Some? && s.live.value.service == service) ==> s'.live.value.id == s.nextId < s'.nextId)
  {
  }

  function LiveAfter(live: Option<Collector>, undo: Undo): Option<Collector> {
    if undo.Reused? || live != Some(undo.installed) then live
    else if undo.FreshlyRegistered? then None
    else Some(undo.prior)
  }

  function Restore(s: State, undo: Undo): State {
    if LiveAfter(s.live, undo) == s.live then s else WithLive(s, LiveAfter(s.live, undo))
  }

  class ProcessCollectors {
    var registry: set<Collector>
    var live: Option<Collector>
    var nextId: nat

    ghost function View(): State
      reads this
    {
      State(registry, live, nextId)
    }

    constructor ()
      ensures View() == State({}, None, 0)
    {
      registry, live, nextId := {}, None, 0;
    }

    /** Each collector object has an identity of its own. */
    method NewCollector(service: string) returns (c: Collector)
      modifies `nextId
      ensures c == Collector(old(nextId), service) && nextId == old(nextId) + 1
    {
      c := Collector(nextId, service);
      nextId := nextId + 1;
    }

    /** REGISTRY.register: refuses a second collector of the same metric names. */
    method Add(c: Collector) returns (duplicate: bool)
      modifies `registry
      ensures duplicate <==> old(registry) != {}
      ensures registry == if duplicate then old(registry) else {c}
    {
      duplicate := registry != {};
      if !duplicate {
        registry := {c};
      }
    }

    /** REGISTRY.unregister */
    method Remove(c: Collector) returns (missing: bool)
      modifies `registry
      ensures missing <==> c !in old(registry)
      ensures registry == old(registry) - {c}
    {
      missing := c !in registry;
      registry := registry - {c};
    }

    /** register_process_collector, one locked step. Neither registry call
        ever raises. */
    method RegisterProcessCollector(service: string) returns (undo: Undo)
      requires Good(View())
      modifies this
      ensures Good(View())
      ensures (View(), undo) == Register(old(View()), service)
    {
      if live.Some? {
        if live.value.service != service {
          var prior := live.value;
          var missing := Remove(prior);
          var c := NewCollector(service);
          live := Some(c);
          var duplicate := Add(c);
          assert !missing && !duplicate;
          return ServiceSwap(c, prior);
        }
        return Reused(live.value);
      }
      var c := NewCollector(service);
      live := Some(c);
      var duplicate := Add(c);
      assert !duplicate;
      return FreshlyRegistered(c);
    }

    /** restore_process_collector, one locked step. Neither registry call ever
        raises; in particular the prior collector is never a duplicate. */
    method RestoreProcessCollector(undo: Undo)
      requires Good(View())
      modifies `registry, `live
      ensures Good(View())
      ensures View() == Restore(old(View()), undo)
    {
      match undo {
        case Reused(_) =>
        case FreshlyRegistered(installed) =>
          if live == Some(installed) {
            var missing := Remove(installed);
            assert !missing;
            live := None;
          }
        case ServiceSwap(installed, prior) =>
          if live == Some(installed) {
            var missing := Remove(installed);
            var duplicate := Add(prior);
            assert !missing && !duplicate;
            live := Some(prior);
          }
      }
    }
  }

  // ---- Any number of installers, in any order ----

  datatype Step = RegisterStep(service: string) | RestoreStep(token: nat)

  /** tokens: what every registration so far handed its installer. */
  datatype World = World(state: State, tokens: seq<Undo>)

  predicate Enabled(w: World, step: Step) {
    step.RestoreStep? ==> step.token < |w.tokens|
  }

  /** A token may be restored any number of times. */
  function Next(w: World, step: Step): World
    requires Enabled(w, step)
  {
    match step
    case RegisterStep(service) =>
      var (state, undo) := Register(w.state, service);
      World(state, w.tokens + [undo])
    case RestoreStep(i) => World(Restore(w.state, w.tokens[i]), w.tokens)
  }

  predicate ValidRun(w: World, run: seq<Step>)
    decreases |run|
  {
    run == [] || (Enabled(w, run[0]) && ValidRun(Next(w, run[0]), run[1..]))
  }

  function Run(w: World, run: seq<Step>): World
    requires ValidRun(w, run)
    decreases |run|
  {
    if run == [] then w else Run(Next(w, run[0]), run[1..])
  }

  /** Token i put the collector c there itself. */
  predicate Installed(tokens: seq<Undo>, i: nat, c: Collector) {
    i < |tokens| && !tokens[i].Reused? && tokens[i].installed == c
  }

  /** The registry matches the singleton, identities are never used twice, and
      every collector an undo may bring back is an old one. */
  ghost predicate Inv(w: World) {
    && Good(w.state)
    && (w.state.live.Some? ==> w.state.live.value.id < w.state.nextId)
    && (forall i | 0 <= i < |w.tokens| :: w.tokens[i].installed.id < w.state.nextId)
    && (forall i | 0 <= i < |w.tokens| && w.tokens[i].ServiceSwap? :: w.tokens[i].prior.id < w.tokens[i].installed.id)
    && (forall i, j | 0 <= i < j < |w.tokens| && !w.tokens[i].Reused? && !w.tokens[j].Reused? ::
          w.tokens[i].installed.id < w.tokens[j].installed.id)
  }

  lemma NextKeepsInv(w: World, step: Step)
    requires Inv(w) && Enabled(w, step)
    ensures Inv(Next(w, step))
  {
  }

  /** In every interleaving, repeated restores included, the registry holds
      exactly the singleton. */
  lemma {:induction false} InvAlways(w: World, run: seq<Step>)
    requires Inv(w) && ValidRun(w, run)
    ensures Inv(Run(w, run))
    decreases |run|
  {
    if run != [] {
      NextKeepsInv(w, run[0]);
      InvAlways(Next(w, run[0]), run[1..]);
    }
  }

  /** A restore takes away the live collector only if its own installer put it
      there: no other token of the run did. */
  lemma RestoreRemovesOwnOnly(w: World, i: nat, j: nat)
    requires Inv(w) && i < |w.tokens| && w.state.live.Some?
    requires Restore(w.state, w.tokens[i]).live != w.state.live
    ensures Installed(w.tokens, i, w.state.live.value)
    ensures Installed(w.tokens, j, w.state.live.value) ==> j == i
  {
  }

  /** Right after registering, or whenever the installer's own collector is live,
      restoring brings back the very collector there was before; and only then,
      unless that one is live already. */
  lemma RestoreExactly(before: State, service: string, now: State)
    ensures var undo := Register(before, service).1;
            Restore(now, undo).live == before.live <==>
            now.live == Some(undo.installed) || now.live == before.live
  {
  }

  // ---- Well-bracketed runs ----

  /** Open an install, or roll back the innermost open one. */
  datatype Bracket = Open(service: string) | Close

  /** A singleton, and the undos of the installs still open, innermost last. */
  datatype Nest = Nest(state: State, open: seq<Undo>)

  function Bracketed(n: Nest, b: Bracket): Nest {
    match b
    case Open(service) =>
      var (state, undo) := Register(n.state, service);
      Nest(state, n.open + [undo])
    case Close =>
      if n.open == [] then n
      else Nest(Restore(n.state, n.open[|n.open| - 1]), n.open[..|n.open| - 1])
  }

  function RunBrackets(n: Nest, run: seq<Bracket>): Nest
    decreases |run|
  {
    if run == [] then n else RunBrackets(Bracketed(n, run[0]), run[1..])
  }

  /** The live collector once every open install has been rolled back. */
  function Unwound(live: Option<Collector>, open: seq<Undo>): Option<Collector>
    decreases |open|
  {
    if open == [] then live else Unwound(LiveAfter(live, open[|open| - 1]), open[..|open| - 1])
  }

  lemma BracketKeepsUnwound(n: Nest, b: Bracket)
    ensures Unwound(Bracketed(n, b).state.live, Bracketed(n, b).open) == Unwound(n.state.live, n.open)
  {
    if b.Open? {
      var (state, undo) := Register(n.state, b.service);
      assert (n.open + [undo])[..|n.open|] == n.open;
      assert LiveAfter(state.live, undo) == n.state.live;
    }
  }

  lemma {:induction false} UnwoundConstant(n: Nest, run: seq<Bracket>)
    ensures Unwound(RunBrackets(n, run).state.live, RunBrackets(n, run).open) == Unwound(n.state.live, n.open)
    decreases |run|
  {
    if run != [] {
      BracketKeepsUnwound(n, run[0]);
      UnwoundConstant(Bracketed(n, run[0]), run[1..]);
    }
  }

  /** A run of rolled-back installs, each nested inside the ones before it,
      returns the very same collector, whatever the services. */
  lemma WellBracketedRestores(state: State, run: seq<Bracket>)
    requires RunBrackets(Nest(state, []), run).open == []
    ensures RunBrackets(Nest(state, []), run).state.live == state.live
  {
    UnwoundConstant(Nest(state, []), run);
  }

  /** Out of order it need not: when the older of two installers rolls back
      first, both rolling back clears the singleton exactly when they asked for
      the same service; otherwise the older one's collector comes back. */
  lemma OutOfOrderExactly(x: string, y: string)
    ensures var start := World(State({}, None, 0), []);
            var both := Next(Next(start, RegisterStep(x)), RegisterStep(y));
            var end := Next(Next(both, RestoreStep(0)), RestoreStep(1));
            end.state.live == if x == y then None else Some(Collector(0, x))
  {
  }

  /** An installer that only reused the collector loses it to its owner's
      rollback, and nobody else does. */
  lemma ReuserLoses(w: World, i: nat, j: nat)
    requires Inv(w) && i < |w.tokens| && j < |w.tokens| && i != j
    requires w.state.live == Some(w.tokens[j].installed)
    requires Installed(w.tokens, i, w.tokens[j].installed)
    ensures w.tokens[j].Reused?
    ensures Restore(w.state, w.tokens[i]).live != w.state.live
  {
  }
}
