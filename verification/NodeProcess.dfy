/** The process-wide half of a Node install: the service global, the process
    collector, the default label and the build_info ledger, changed in that
    order by an attempt and put back by hand when the attempt fails. */
module NodeProcess {
  import opened Wrappers
  import opened Text
  import PC = ProcessCollector
  import opened BuildInfo

  /** The steps an install takes here, numbered in order. An attempt is given
      the number of steps that complete before one throws: step k completes iff
      k <= done. */
  const SERVICE_SET: nat := 1
  const COLLECTOR_REGISTERED: nat := 2
  const DEFAULTS_SET: nat := 3
  const CLOCK_READ: nat := 4
  const BUILD_INFO_SET: nat := 5

  /** The paths every adapter tells authentication middleware to leave alone. */
  function ExemptPaths(path: string): set<string> {
    {path, "/health", "/ready", "/healthz"}
  }

  datatype Shared = Shared(
    service: Option<string>,
    collector: PC.State,
    ledger: Ledger<string>,
    defaultLabel: Option<string>)

  function TrimService(service: Option<string>): (trimmed: Option<string>)
    ensures trimmed.Some? ==> Trimmed(trimmed.value, JsSpace)
  {
    match service
    case None => None
    case Some(s) => Some(Trim(s, JsSpace))
  }

  ghost predicate GoodShared(s: Shared) {
    && TrimService(s.service) == s.service
    && PC.GoodCollector(s.collector)
    && Consistent(s.ledger)
  }

  // ---- What an attempt promises ----

  /** The effect of a successful attempt. */
  function Committed(s: Shared, l: Labels): Shared {
    Shared(TrimService(Some(l.service)), PC.Register(s.collector, l.service).0,
           Registered(s.ledger, LabelKey(l), l), Some(l.service))
  }

  /** l's key is owned, but by a different tuple. */
  predicate Collides(s: Shared, l: Labels) {
    LabelKey(l) in s.ledger.owned && l !in s.ledger.samples
  }

  /** All that is left of a failed attempt: the default label, the counter values
      a relabelling dropped, and the sample of a tuple whose key collided. */
  function RolledBack(s: Shared, l: Labels, done: nat): Shared {
    s.(defaultLabel := if DEFAULTS_SET <= done then Some(l.service) else s.defaultLabel,
       collector := if COLLECTOR_REGISTERED <= done then PC.ThereAndBack(s.collector, l.service) else s.collector,
       ledger := if BUILD_INFO_SET <= done && Collides(s, l)
                 then s.ledger.(samples := s.ledger.samples[l := 1.0]) else s.ledger)
  }

  // ---- The attempt itself ----

  /** The local variables an install keeps for its catch block. */
  datatype Undo = Undo(
    preService: Option<string>,
    collector: Option<PC.Rollback>,
    labels: Option<Labels>,
    wasNew: bool)

  /** The singletons on globalThis that an install touches. */
  class NodeProcess {
    // baseline.ts and registry.ts
    var service: Option<string>
    var defaultLabel: Option<string>
    // process.ts
    var registered: bool
    var collectorService: Option<string>
    var lastCpu: real
    var cpu: map<string, real>
    var chain: seq<PC.Collect>
    var orphans: nat
    ghost var retired: real
    ghost var lost: real
    // buildinfo.ts
    var ownedKeys: set<string>
    var samples: map<Labels, real>

    ghost function View(): Shared
      reads this
    {
      Shared(service, CollectorView(), LedgerView(), defaultLabel)
    }

    ghost function LedgerView(): Ledger<string>
      reads `ownedKeys, `samples
    {
      Ledger(ownedKeys, samples)
    }

    ghost function CollectorView(): PC.State
      reads `registered, `collectorService, `lastCpu, `cpu, `chain, `orphans, `retired, `lost
    {
      PC.State(registered, collectorService, lastCpu, cpu, chain, orphans, retired, lost)
    }

    ghost predicate Linked()
      reads `registered, `collectorService
    {
      registered <==> collectorService.Some?
    }

    ghost predicate Valid()
      reads this
    {
      Linked() && GoodShared(View())
    }

    constructor ()
      ensures Valid() && View() == Shared(None, PC.UNREGISTERED, Ledger({}, map[]), None)
    {
      service, defaultLabel, collectorService := None, None, None;
      registered, lastCpu, cpu, chain, orphans, retired, lost := false, 0.0, map[], [], 0, 0.0, 0.0;
      ownedKeys, samples := {}, map[];
    }

    method SetService(s: Option<string>)
      modifies `service
      ensures service == TrimService(s)
    {
      var next := s;
      if next.Some? {
        next := Some(Trim(next.value, JsSpace));
      }
      service := next;
    }

    // ---- process.ts ----

    /** counter.remove({ service: dropped }) */
    method DropLabel(dropped: string)
      modifies `cpu, `retired
      ensures CollectorView() == PC.DropLabel(old(CollectorView()), dropped)
    {
      retired := retired + PC.ValueAt(cpu, dropped);
      cpu := cpu - {dropped};
    }

    method RegisterProcessCollector(svc: string) returns (undo: PC.Rollback)
      modifies `registered, `collectorService, `cpu, `retired
      ensures (CollectorView(), undo) == PC.Register(old(CollectorView()), svc)
    {
      if registered {
        if collectorService == Some(svc) {
          return PC.Reused;
        }
        var prior := collectorService.GetOr("");
        collectorService := Some(svc);
        DropLabel(prior);
        return PC.ServiceSwap(prior);
      }
      collectorService := Some(svc);
      registered := true;
      cpu := map[];
      return PC.FreshlyRegistered;
    }

    method RestoreProcessCollector(undo: PC.Rollback)
      modifies `registered, `collectorService, `lastCpu, `cpu, `chain, `orphans, `retired, `lost
      ensures CollectorView() == PC.Restore(old(CollectorView()), undo)
    {
      match undo {
        case Reused =>
        case ServiceSwap(prior) =>
          var failed := collectorService.GetOr("");
          collectorService := Some(prior);
          if failed != "" && failed != prior {
            DropLabel(failed);
          }
        case FreshlyRegistered =>
          orphans := orphans + |chain|;
          registered, collectorService, lastCpu, chain, cpu := false, None, 0.0, [], map[];
          retired, lost := 0.0, 0.0;
      }
    }

    /** A scrape starts: its callback queues behind the previous one. */
    method Collect()
      modifies `chain
      ensures CollectorView() == old(CollectorView()).(chain := old(chain) + [PC.Waiting])
    {
      chain := chain + [PC.Waiting];
    }

    /** The first callback reads the cumulative CPU time. */
    method ReadUsage(total: real)
      requires chain != [] && chain[0].Waiting?
      modifies `chain
      ensures CollectorView() == old(CollectorView()).(chain := [PC.HasRead(total)] + old(chain)[1..])
    {
      chain := [PC.HasRead(total)] + chain[1..];
    }

    /** The first callback adds what is new since the last one to the counter. */
    method AccountUsage()
      requires chain != [] && chain[0].HasRead?
      modifies `lastCpu, `cpu, `chain
      ensures CollectorView() == PC.Account(old(CollectorView()), old(chain)[0].total)
    {
      var total := chain[0].total;
      var delta := if total - lastCpu > 0.0 then total - lastCpu else 0.0;
      lastCpu := total;
      if delta > 0.0 {
        var key := collectorService.GetOr("");
        cpu := cpu[key := PC.ValueAt(cpu, key) + delta];
      }
      chain := chain[1..];
    }

    /** A callback still scheduled on a dropped counter runs. */
    method AccountDropped(total: real)
      requires orphans > 0
      modifies `lastCpu, `orphans, `lost
      ensures CollectorView() == PC.AccountOrphan(old(CollectorView()), total)
    {
      ghost var gained := PC.Gained(CollectorView(), total);
      lastCpu := total;
      lost := lost + gained;
      orphans := orphans - 1;
    }

    // ---- buildinfo.ts ----

    method RegisterBuildInfo(l: Labels) returns (wasNew: bool)
      modifies `ownedKeys, `samples
      ensures wasNew <==> LabelKey(l) !in old(ownedKeys)
      ensures LedgerView() == Registered(old(LedgerView()), LabelKey(l), l)
    {
      var key := LabelKey(l);
      wasNew := key !in ownedKeys;
      if wasNew {
        ownedKeys := ownedKeys + {key};
      }
      samples := samples[l := 1.0];
    }

    method UnregisterBuildInfoIfOwned(l: Labels, wasNew: bool)
      modifies `ownedKeys, `samples
      ensures LedgerView() == UnregisteredIfOwned(old(LedgerView()), LabelKey(l), l, wasNew)
    {
      if !wasNew {
        return;
      }
      ownedKeys := ownedKeys - {LabelKey(l)};
      samples := samples - {l};
    }

    // ---- One attempt ----

    /** The shared steps of an attempt, up to the failing one. */
    method Begin(l: Labels, done: nat) returns (undo: Undo)
      requires Linked()
      modifies this
      ensures Linked() && Begun(old(View()), View(), l, done, undo)
    {
      undo := Undo(service, None, None, false);
      label Try: {
        if done < SERVICE_SET { break Try; }
        SetService(Some(l.service));
        if done < COLLECTOR_REGISTERED { break Try; }
        var rollback := RegisterProcessCollector(l.service);
        undo := undo.(collector := Some(rollback));
        if done < DEFAULTS_SET { break Try; }
        defaultLabel := Some(l.service);
        if done < CLOCK_READ { break Try; }
        undo := undo.(labels := Some(l));
        if done < BUILD_INFO_SET { break Try; }
        var wasNew := RegisterBuildInfo(l);
        undo := undo.(wasNew := wasNew);
      }
    }

    /** The shared half of the catch block. */
    method UndoSteps(undo: Undo)
      requires Linked()
      requires undo.collector.Some? && undo.collector.value.ServiceSwap? ==> registered
      modifies this
      ensures Linked() && View() == Undone(old(View()), undo)
    {
      if undo.labels.Some? {
        UnregisterBuildInfoIfOwned(undo.labels.value, undo.wasNew);
      }
      if undo.collector.Some? {
        RestoreProcessCollector(undo.collector.value);
      }
      SetService(undo.preService);
    }

    /** Undoing the steps of a failed attempt that began in state before. */
    method RollBack(undo: Undo, ghost before: Shared, ghost l: Labels, ghost done: nat)
      requires Linked() && GoodShared(before) && Begun(before, View(), l, done, undo)
      modifies this
      ensures Valid() && View() == RolledBack(before, l, done)
    {
      RollbackExact(before, View(), l, done, undo);
      RollbackKeepsGood(before, l, done);
      UndoSteps(undo);
    }
  }

  /** after is what the passed steps make of before, and undo records it. */
  ghost predicate Begun(before: Shared, after: Shared, l: Labels, done: nat, undo: Undo) {
    && after.service == (if SERVICE_SET <= done then TrimService(Some(l.service)) else before.service)
    && after.collector == (if COLLECTOR_REGISTERED <= done then PC.Register(before.collector, l.service).0
                           else before.collector)
    && after.defaultLabel == (if DEFAULTS_SET <= done then Some(l.service) else before.defaultLabel)
    && after.ledger == (if BUILD_INFO_SET <= done then Registered(before.ledger, LabelKey(l), l)
                        else before.ledger)
    && undo.preService == before.service
    && undo.collector == (if done < COLLECTOR_REGISTERED then None
                          else Some(PC.Register(before.collector, l.service).1))
    && undo.labels == (if CLOCK_READ <= done then Some(l) else None)
    && undo.wasNew == (BUILD_INFO_SET <= done && LabelKey(l) !in before.ledger.owned)
  }

  /** An attempt that passes every step has committed. */
  lemma BegunCommits(before: Shared, after: Shared, l: Labels, done: nat, undo: Undo)
    requires GoodShared(before) && BUILD_INFO_SET <= done && Begun(before, after, l, done, undo)
    ensures after == Committed(before, l) && GoodShared(after)
  {
    CommitKeepsGood(before, l);
  }

  function Undone(s: Shared, undo: Undo): Shared {
    s.(service := TrimService(undo.preService),
       collector := if undo.collector.Some? then PC.Restore(s.collector, undo.collector.value) else s.collector,
       ledger := if undo.labels.Some?
                 then UnregisteredIfOwned(s.ledger, LabelKey(undo.labels.value), undo.labels.value, undo.wasNew)
                 else s.ledger)
  }

  function LedgerUndone(g: Ledger<string>, l: Labels): Ledger<string> {
    UnregisteredIfOwned(Registered(g, LabelKey(l), l), LabelKey(l), l, LabelKey(l) !in g.owned)
  }

  lemma LedgerRollback(g: Ledger<string>, l: Labels)
    requires Consistent(g)
    ensures LedgerUndone(g, l).owned == g.owned
    ensures LedgerUndone(g, l).samples ==
            if LabelKey(l) in g.owned && l !in g.samples then g.samples[l := 1.0] else g.samples
  {
    if LabelKey(l) !in g.owned {
      assert l !in g.samples;
      assert g.samples[l := 1.0] - {l} == g.samples;
    } else if l in g.samples {
      assert g.samples[l := 1.0] == g.samples;
    }
  }

  /** Rolling back after any number of steps leaves exactly RolledBack behind. */
  lemma RollbackExact(before: Shared, after: Shared, l: Labels, done: nat, undo: Undo)
    requires GoodShared(before) && Begun(before, after, l, done, undo)
    ensures Undone(after, undo) == RolledBack(before, l, done)
  {
    LedgerRollback(before.ledger, l);
    assert Undone(after, undo).ledger == RolledBack(before, l, done).ledger;
  }

  /** A NUL-free tuple never collides with NUL-free ones. */
  lemma NoCollision(s: Shared, l: Labels)
    requires GoodShared(s) && NulFree(l)
    ensures !Collides(s, l)
  {
    if LabelKey(l) in s.ledger.owned {
      var l' :| l' in s.ledger.samples && LabelKey(l') == LabelKey(l);
      KeyUniqueExactly(l);
    }
  }

  /** A failed attempt leaves shared state as it was exactly when it did not get
      past setting the default label to a new service, nor past relabelling a
      collector with counter values to lose, nor its tuple's key collided. */
  lemma RollbackLeavesExactly(s: Shared, l: Labels, done: nat)
    requires GoodShared(s)
    ensures RolledBack(s, l, done) == s <==>
            && (DEFAULTS_SET <= done ==> s.defaultLabel == Some(l.service))
            && (COLLECTOR_REGISTERED <= done ==>
                  !s.collector.registered || s.collector.service == Some(l.service)
                  || PC.NothingToLose(s.collector, l.service))
            && (BUILD_INFO_SET <= done ==> !Collides(s, l))
  {
    PC.UndoneExactly(s.collector, l.service);
    if Collides(s, l) { assert l in s.ledger.samples[l := 1.0]; }
  }

  lemma CommitKeepsGood(s: Shared, l: Labels)
    requires GoodShared(s)
    ensures GoodShared(Committed(s, l))
  {
    PC.RegisterRespectsSame(s.collector, s.collector, l.service);
    var g, g' := s.ledger, Committed(s, l).ledger;
    forall k <- g'.owned ensures exists l' :: l' in g'.samples && LabelKey(l') == k {
      if k == LabelKey(l) {
        assert l in g'.samples;
      } else {
        var l' :| l' in g.samples && LabelKey(l') == k;
        assert l' in g'.samples;
      }
    }
  }

  lemma RollbackKeepsGood(s: Shared, l: Labels, done: nat)
    requires GoodShared(s)
    ensures GoodShared(RolledBack(s, l, done))
  {
    PC.ThereAndBackSame(s.collector, l.service);
    var g, g' := s.ledger, RolledBack(s, l, done).ledger;
    forall k <- g'.owned ensures exists l' :: l' in g'.samples && LabelKey(l') == k {
      var l' :| l' in g.samples && LabelKey(l') == k;
      assert l' in g'.samples;
    }
  }

  /** The effect of an attempt; done is the number of steps that complete. */
  function SharedAfter(s: Shared, l: Labels, succeeds: bool, done: nat): Shared {
    if succeeds then Committed(s, l) else RolledBack(s, l, done)
  }

  // ---- Any run of attempts in one process, through whichever adapters ----

  /** Equal but for the default label and which part of the CPU time accounted
      is still on a live counter. */
  ghost predicate SharedSimilar(s: Shared, t: Shared) {
    s.service == t.service && s.ledger == t.ledger && PC.SameButLive(s.collector, t.collector)
  }

  lemma FailureIsSimilar(s: Shared, l: Labels, done: nat)
    requires GoodShared(s) && NulFree(l)
    ensures SharedSimilar(RolledBack(s, l, done), s)
  {
    NoCollision(s, l);
    PC.ThereAndBackSame(s.collector, l.service);
  }

  lemma CommitRespectsSimilar(s: Shared, t: Shared, l: Labels)
    requires GoodShared(s) && GoodShared(t) && SharedSimilar(s, t)
    ensures SharedSimilar(Committed(s, l), Committed(t, l))
  {
    PC.RegisterRespectsSame(s.collector, t.collector, l.service);
  }

  /** A step of a scrape between two attempts. */
  function Scraped(s: Shared, step: PC.Step): Shared {
    s.(collector := PC.Scraped(s.collector, step))
  }

  lemma ScrapeRespectsSimilar(s: Shared, t: Shared, step: PC.Step)
    requires GoodShared(s) && GoodShared(t) && SharedSimilar(s, t)
    ensures SharedSimilar(Scraped(s, step), Scraped(t, step)) && GoodShared(Scraped(s, step))
  {
    PC.ScrapedRespectsSame(s.collector, t.collector, step);
  }

  /** An attempt, through an adapter that has needed steps in all, or a step of a
      scrape. */
  datatype Action = Attempt(labels: Labels, done: nat, needed: nat) | Scrape(step: PC.Step)

  predicate Fails(a: Action) { a.Attempt? && a.done < a.needed }

  function Acted(s: Shared, a: Action): Shared {
    match a
    case Attempt(l, done, needed) => SharedAfter(s, l, needed <= done, done)
    case Scrape(step) => Scraped(s, step)
  }

  function ActAll(s: Shared, actions: seq<Action>): Shared
    decreases |actions|
  {
    if actions == [] then s else ActAll(Acted(s, actions[0]), actions[1..])
  }

  lemma {:induction false} ActAllAppend(s: Shared, first: seq<Action>, rest: seq<Action>)
    ensures ActAll(s, first + rest) == ActAll(ActAll(s, first), rest)
    decreases |first|
  {
    if first == [] {
      assert first + rest == rest;
    } else {
      assert (first + rest)[1..] == first[1..] + rest;
      ActAllAppend(Acted(s, first[0]), first[1..], rest);
    }
  }

  function WithoutFailures(actions: seq<Action>): seq<Action> {
    if actions == [] then []
    else (if Fails(actions[0]) then [] else [actions[0]]) + WithoutFailures(actions[1..])
  }

  lemma ActionKeepsGood(s: Shared, a: Action)
    requires GoodShared(s)
    ensures GoodShared(Acted(s, a))
  {
    match a
    case Attempt(l, done, _) =>
      CommitKeepsGood(s, l);
      RollbackKeepsGood(s, l, done);
    case Scrape(step) => ScrapeRespectsSimilar(s, s, step);
  }

  lemma ActionRespectsSimilar(s: Shared, t: Shared, a: Action)
    requires GoodShared(s) && GoodShared(t) && SharedSimilar(s, t) && !Fails(a)
    ensures SharedSimilar(Acted(s, a), Acted(t, a))
  {
    match a
    case Attempt(l, _, _) => CommitRespectsSimilar(s, t, l);
    case Scrape(step) => ScrapeRespectsSimilar(s, t, step);
  }

  lemma {:induction false} AttemptsErasableFrom(s: Shared, t: Shared, actions: seq<Action>)
    requires GoodShared(s) && GoodShared(t) && SharedSimilar(s, t)
    requires forall a <- actions :: a.Attempt? ==> NulFree(a.labels)
    ensures SharedSimilar(ActAll(s, actions), ActAll(t, WithoutFailures(actions)))
    decreases |actions|
  {
    if actions != [] {
      var a, rest := actions[0], actions[1..];
      ActionKeepsGood(s, a);
      if Fails(a) {
        FailureIsSimilar(s, a.labels, a.done);
        assert [] + WithoutFailures(rest) == WithoutFailures(rest);
        AttemptsErasableFrom(Acted(s, a), t, rest);
      } else {
        ActionKeepsGood(t, a);
        ActionRespectsSimilar(s, t, a);
        assert ([a] + WithoutFailures(rest))[1..] == WithoutFailures(rest);
        AttemptsErasableFrom(Acted(s, a), Acted(t, a), rest);
      }
    }
  }

  /** The process-wide state after any run of attempts, through any mix of
      adapters and with scrapes in between, is that of the run without the
      failed ones: service, ownership, samples, collector label, CPU memo and
      pending collects are equal, and so is the CPU time on live counters and
      retired together. */
  lemma AttemptsErasable(s: Shared, actions: seq<Action>)
    requires GoodShared(s) && forall a <- actions :: a.Attempt? ==> NulFree(a.labels)
    ensures SharedSimilar(ActAll(s, actions), ActAll(s, WithoutFailures(actions)))
  {
    AttemptsErasableFrom(s, s, actions);
  }

  // ---- What a process says of itself ----

  /** The labels of an attempt that succeeds. */
  function Success(a: Action): Option<Labels> {
    if a.Attempt? && !Fails(a) then Some(a.labels) else None
  }

  /** The labels of the last attempt to succeed. */
  function LastSuccess(last: Option<Labels>, actions: seq<Action>): Option<Labels>
    decreases |actions|
  {
    if actions == [] then last
    else LastSuccess(if Success(actions[0]).Some? then Success(actions[0]) else last, actions[1..])
  }

  /** An attempt gets past the default label, whatever happens to it then. */
  predicate SetsDefault(a: Action) {
    a.Attempt? && (DEFAULTS_SET <= a.done || a.needed <= a.done)
  }

  /** The service of the last attempt to get past the default label. */
  function LastDefault(last: Option<string>, actions: seq<Action>): Option<string>
    decreases |actions|
  {
    if actions == [] then last
    else LastDefault(if SetsDefault(actions[0]) then Some(actions[0].labels.service) else last, actions[1..])
  }

  function SucceededIn(a: Action): set<Labels> {
    if Success(a).Some? then {Success(a).value} else {}
  }

  function Succeeded(actions: seq<Action>): set<Labels> {
    if actions == [] then {} else SucceededIn(actions[0]) + Succeeded(actions[1..])
  }

  /** The process reports l's service, or what it reported before. */
  ghost predicate Reports(before: Shared, after: Shared, l: Option<Labels>) {
    match l
    case None => after.service == before.service && after.collector.service == before.collector.service
    case Some(l) => after.service == Some(Trim(l.service, JsSpace)) && after.collector.service == Some(l.service)
  }

  lemma ActedReports(s: Shared, a: Action)
    requires GoodShared(s)
    ensures Reports(s, Acted(s, a), Success(a))
  {
    if a.Attempt? { PC.ThereAndBackSame(s.collector, a.labels.service); }
  }

  lemma ActedSamples(s: Shared, a: Action)
    requires GoodShared(s) && (a.Attempt? ==> NulFree(a.labels))
    ensures Acted(s, a).ledger.samples.Keys == s.ledger.samples.Keys + SucceededIn(a)
  {
    if a.Attempt? { NoCollision(s, a.labels); }
  }

  lemma ReportsStep(first: Shared, s: Shared, last: Option<Labels>, a: Action)
    requires GoodShared(s) && Reports(first, s, last)
    ensures Reports(first, Acted(s, a), if Success(a).Some? then Success(a) else last)
  {
    ActedReports(s, a);
  }

  lemma {:induction false} ReportsFrom(first: Shared, s: Shared, last: Option<Labels>, actions: seq<Action>)
    requires GoodShared(s) && Reports(first, s, last)
    ensures Reports(first, ActAll(s, actions), LastSuccess(last, actions))
    decreases |actions|
  {
    if actions != [] {
      var a := actions[0];
      ActionKeepsGood(s, a);
      ReportsStep(first, s, last, a);
      ReportsFrom(first, Acted(s, a), if Success(a).Some? then Success(a) else last, actions[1..]);
    }
  }

  lemma ActedDefault(s: Shared, a: Action)
    ensures Acted(s, a).defaultLabel == if SetsDefault(a) then Some(a.labels.service) else s.defaultLabel
  {
  }

  lemma {:induction false} DefaultFrom(s: Shared, actions: seq<Action>)
    ensures ActAll(s, actions).defaultLabel == LastDefault(s.defaultLabel, actions)
    decreases |actions|
  {
    if actions != [] {
      ActedDefault(s, actions[0]);
      DefaultFrom(Acted(s, actions[0]), actions[1..]);
    }
  }

  lemma {:induction false} SamplesFrom(s: Shared, actions: seq<Action>)
    requires GoodShared(s) && forall a <- actions :: a.Attempt? ==> NulFree(a.labels)
    ensures ActAll(s, actions).ledger.samples.Keys == s.ledger.samples.Keys + Succeeded(actions)
    decreases |actions|
  {
    if actions != [] {
      ActionKeepsGood(s, actions[0]);
      ActedSamples(s, actions[0]);
      SamplesFrom(Acted(s, actions[0]), actions[1..]);
    }
  }

  /** After any run of attempts through any mix of adapters, scrapes in between:
      the service global is the trimmed service of the last attempt to succeed,
      the collector is registered for that service, the default label is that of
      the last attempt to get so far, and the build_info samples are those of
      exactly the attempts that succeeded. */
  lemma ProcessReportsLast(s: Shared, actions: seq<Action>)
    requires GoodShared(s) && forall a <- actions :: a.Attempt? ==> NulFree(a.labels)
    ensures Reports(s, ActAll(s, actions), LastSuccess(None, actions))
    ensures ActAll(s, actions).defaultLabel == LastDefault(s.defaultLabel, actions)
    ensures ActAll(s, actions).ledger.samples.Keys == s.ledger.samples.Keys + Succeeded(actions)
  {
    ReportsFrom(s, s, None, actions);
    DefaultFrom(s, actions);
    SamplesFrom(s, actions);
  }
}
