/** The process-wide half of a Python install: the service global, the collector
    singleton and the build_info ledger, undone by hand on failure. */
module PyProcess {
  import opened Wrappers
  import opened Text
  import PC = PyCollector
  import opened BuildInfo
  import Own = BuildInfoOwnership

  // The steps in order; an attempt is given how many complete before one raises.
  const SERVICE_SET: nat := 1
  const COLLECTOR_REGISTERED: nat := 2
  const BUILD_INFO_SET: nat := 3

  /** The paths every adapter tells authentication middleware to leave alone. */
  function ExemptPaths(path: string): set<string> {
    {path, "/health", "/ready", "/healthz"}
  }

  /** What an install can be told to have changed. */
  datatype Shared = Shared(
    service: Option<string>,
    live: Option<PC.Collector>,
    registry: set<PC.Collector>,
    ledger: Ledger<Labels>)

  function StripService(service: Option<string>): (stripped: Option<string>)
    ensures stripped.Some? ==> Trimmed(stripped.value, PySpace)
  {
    match service
    case None => None
    case Some(s) => Some(Trim(s, PySpace))
  }

  /** What every install, failed or not, leaves true: the global is stripped, the
      registry holds the singleton, and exactly the owned tuples have a sample. */
  ghost predicate GoodShared(s: Shared) {
    && StripService(s.service) == s.service
    && s.registry == PC.Holds(s.live)
    && s.ledger.owned == s.ledger.samples.Keys
    && forall l <- s.ledger.samples :: s.ledger.samples[l] == 1.0
  }

  // ---- What an attempt promises ----

  /** next: the identity the next collector object will have. */
  function CollectorsOf(s: Shared, next: nat): PC.State {
    PC.State(s.registry, s.live, next)
  }

  /** The effect of a successful attempt. */
  function Committed(s: Shared, next: nat, l: Labels): Shared {
    var c := PC.Register(CollectorsOf(s, next), l.service).0;
    Shared(StripService(Some(l.service)), c.live, c.registry, Registered(s.ledger, l, l))
  }

  function SharedAfter(s: Shared, next: nat, l: Labels, raised: bool): Shared {
    if raised then s else Committed(s, next, l)
  }

  /** A collector object made by an attempt is never seen again when it fails. */
  function NextAfter(s: Shared, next: nat, l: Labels, done: nat): nat {
    if COLLECTOR_REGISTERED <= done then PC.Register(CollectorsOf(s, next), l.service).0.nextId else next
  }

  datatype Undo = Undo(
    preService: Option<string>,
    collector: Option<PC.Undo>,
    labels: Option<Labels>,
    wasNew: bool)

  class PyProcess {
    var service: Option<string>
    const collectors: PC.ProcessCollectors
    const buildInfo: Own.PyBuildInfo

    ghost function View(): Shared
      reads this, collectors, buildInfo
    {
      Shared(service, collectors.live, collectors.registry, buildInfo.View())
    }

    ghost predicate Valid()
      reads this, collectors, buildInfo
    {
      GoodShared(View())
    }

    constructor ()
      ensures Valid() && fresh(collectors) && fresh(buildInfo)
      ensures View() == Shared(None, None, {}, Ledger({}, map[]))
    {
      service := None;
      collectors := new PC.ProcessCollectors();
      buildInfo := new Own.PyBuildInfo();
    }

    method SetService(s: Option<string>)
      modifies this`service
      ensures service == StripService(s)
    {
      var next := s;
      if next.Some? {
        next := Some(Trim(next.value, PySpace));
      }
      service := next;
    }

    /** The shared steps of an attempt, up to the failing one. */
    method Begin(l: Labels, done: nat) returns (undo: Undo)
      requires Valid()
      modifies this, collectors, buildInfo
      ensures Begun(old(View()), old(collectors.nextId), View(), l, done, undo)
      ensures collectors.nextId == NextAfter(old(View()), old(collectors.nextId), l, done)
    {
      undo := Undo(service, None, None, false);
      label Try: {
        if done < SERVICE_SET { break Try; }
        SetService(Some(l.service));
        if done < COLLECTOR_REGISTERED { break Try; }
        var token := collectors.RegisterProcessCollector(l.service);
        undo := undo.(collector := Some(token));
        if done < BUILD_INFO_SET { break Try; }
        var wasNew := buildInfo.Register(l);
        undo := undo.(labels := Some(l), wasNew := wasNew);
      }
    }

    /** The shared half of the except block, for an attempt begun in before. */
    method RollBack(undo: Undo, ghost before: Shared, ghost next: nat, ghost l: Labels, ghost done: nat)
      requires GoodShared(before) && Begun(before, next, View(), l, done, undo)
      modifies this, collectors, buildInfo
      ensures Valid() && View() == before && collectors.nextId == old(collectors.nextId)
    {
      LedgerRollback(before.ledger, l);
      if undo.labels.Some? {
        buildInfo.UnregisterIfOwned(undo.labels.value, undo.wasNew);
      }
      if undo.collector.Some? {
        collectors.RestoreProcessCollector(undo.collector.value);
      }
      SetService(undo.preService);
    }
  }

  /** after is what the completed steps make of before, and undo records it. */
  ghost predicate Begun(before: Shared, next: nat, after: Shared, l: Labels, done: nat, undo: Undo) {
    && after.service == (if SERVICE_SET <= done then StripService(Some(l.service)) else before.service)
    && after.ledger == (if BUILD_INFO_SET <= done then Registered(before.ledger, l, l) else before.ledger)
    && undo.preService == before.service
    && undo.labels == (if BUILD_INFO_SET <= done then Some(l) else None)
    && undo.wasNew == (BUILD_INFO_SET <= done && l !in before.ledger.owned)
    && var (c, token) := PC.Register(CollectorsOf(before, next), l.service);
       if COLLECTOR_REGISTERED <= done
       then after.live == c.live && after.registry == c.registry && undo.collector == Some(token)
       else after.live == before.live && after.registry == before.registry && undo.collector == None
  }

  lemma LedgerRollback(g: Ledger<Labels>, l: Labels)
    requires g.owned == g.samples.Keys && forall k <- g.samples :: g.samples[k] == 1.0
    ensures UnregisteredIfOwned(Registered(g, l, l), l, l, l !in g.owned) == g
  {
    if l in g.owned {
      assert g.samples[l := 1.0] == g.samples && g.owned + {l} == g.owned;
    } else {
      assert g.samples[l := 1.0] - {l} == g.samples && g.owned + {l} - {l} == g.owned;
    }
  }

  lemma CommitKeepsGood(s: Shared, next: nat, l: Labels)
    requires GoodShared(s)
    ensures GoodShared(Committed(s, next, l))
  {
  }

  lemma BegunCommits(before: Shared, next: nat, after: Shared, l: Labels, done: nat, undo: Undo)
    requires GoodShared(before) && BUILD_INFO_SET <= done && Begun(before, next, after, l, done, undo)
    ensures after == Committed(before, next, l) && GoodShared(after)
  {
    CommitKeepsGood(before, next, l);
  }
}
