/** The Node process collector: one per process, carrying the service label its
    samples get, and a CPU counter fed by differences of the process's
    cumulative CPU time. Concurrent scrapes queue on a promise chain. */
module ProcessCollector {
  import opened Wrappers

  /** What registering did, so that a failed install can undo it. */
  datatype Rollback = Reused | FreshlyRegistered | ServiceSwap(priorService: string)

  /** One collect() callback on the chain; only the first may be running. */
  datatype Collect = Waiting | HasRead(total: real)

  /** orphans counts the callbacks still scheduled on counters that have been
      dropped from the registry. retired is the total of all counter values
      dropped by relabelling, and lost of what orphans put on dropped counters,
      both since the metrics were registered last. */
  datatype State = State(
    registered: bool,
    service: Option<string>,
    lastCpu: real,
    cpu: map<string, real>,
    chain: seq<Collect>,
    orphans: nat,
    retired: real,
    lost: real)

  const UNREGISTERED := State(false, None, 0.0, map[], [], 0, 0.0, 0.0)

  function ValueAt(cpu: map<string, real>, service: string): real {
    if service in cpu then cpu[service] else 0.0
  }

  function DropLabel(s: State, service: string): State {
    s.(cpu := s.cpu - {service}, retired := s.retired + ValueAt(s.cpu, service))
  }

  function Register(s: State, service: string): (State, Rollback) {
    if !s.registered then (s.(registered := true, service := Some(service), cpu := map[]), FreshlyRegistered)
    else if s.service == Some(service) then (s, Reused)
    else
      var prior := s.service.GetOr("");
      (DropLabel(s, prior).(service := Some(service)), ServiceSwap(prior))
  }

  function Restore(s: State, undo: Rollback): State {
    match undo
    case Reused => s
    case FreshlyRegistered => UNREGISTERED.(orphans := s.orphans + |s.chain|)
    case ServiceSwap(prior) =>
      var failed := s.service.GetOr("");
      var back := s.(service := Some(prior));
      if failed != "" && failed != prior then DropLabel(back, failed) else back
  }

  function Gained(s: State, total: real): real {
    if total - s.lastCpu > 0.0 then total - s.lastCpu else 0.0
  }

  /** The first callback of the chain adds what is new since the last one. */
  function Account(s: State, total: real): State
    requires s.chain != []
  {
    var service := s.service.GetOr("");
    s.(lastCpu := total, chain := s.chain[1..],
       cpu := if Gained(s, total) > 0.0 then s.cpu[service := ValueAt(s.cpu, service) + Gained(s, total)] else s.cpu)
  }

  /** An orphan does the same to the memo, but its counter is nobody's. */
  function AccountOrphan(s: State, total: real): State
    requires s.orphans > 0
  {
    s.(lastCpu := total, orphans := s.orphans - 1, lost := s.lost + Gained(s, total))
  }

  // ---- Conservation over whole runs ----

  ghost function Sum(cpu: map<string, real>): real
    decreases |cpu|
  {
    if cpu == map[] then 0.0
    else
      var k :| k in cpu;
      cpu[k] + Sum(cpu - {k})
  }

  /** Any labelset may be summed first. */
  lemma {:induction false} SumSplit(cpu: map<string, real>, k: string)
    requires k in cpu
    ensures Sum(cpu) == cpu[k] + Sum(cpu - {k})
    decreases |cpu|
  {
    var first :| first in cpu && Sum(cpu) == cpu[first] + Sum(cpu - {first});
    if first != k {
      SumSplit(cpu - {first}, k);
      SumSplit(cpu - {k}, first);
      assert cpu - {first} - {k} == cpu - {k} - {first};
    }
  }

  lemma SumWithout(cpu: map<string, real>, k: string)
    ensures Sum(cpu - {k}) == Sum(cpu) - ValueAt(cpu, k)
  {
    if k in cpu { SumSplit(cpu, k); } else { assert cpu - {k} == cpu; }
  }

  lemma SumWith(cpu: map<string, real>, k: string, v: real)
    ensures Sum(cpu[k := v]) == Sum(cpu) - ValueAt(cpu, k) + v
  {
    SumSplit(cpu[k := v], k);
    assert cpu[k := v] - {k} == cpu - {k};
    SumWithout(cpu, k);
  }

  datatype Step =
    | RegisterStep(service: string)
    | RestoreStep(undo: Rollback)
    | ScrapeStep
    | ReadStep(total: real)
    | AccountStep
    | OrphanStep(total: real)

  /** A collector, and the latest cumulative CPU time anyone has read. */
  datatype World = World(collector: State, clock: real)

  /** No callback of the chain is half-way through. */
  predicate BetweenCallbacks(s: State) {
    s.chain == [] || s.chain[0].Waiting?
  }

  /** Steps may come in any order, with these limits: cumulative CPU time never
      decreases, only registered metrics are scraped, relabelling is undone
      while registered, and a callback runs to completion before an orphan runs
      or the metrics are dropped. */
  predicate Enabled(w: World, step: Step) {
    var c := w.collector;
    match step
    case RegisterStep(_) => true
    case RestoreStep(undo) => (undo.FreshlyRegistered? ==> BetweenCallbacks(c)) && (undo.ServiceSwap? ==> c.registered)
    case ScrapeStep => c.registered
    case ReadStep(total) => c.chain != [] && c.chain[0].Waiting? && w.clock <= total
    case AccountStep => c.chain != [] && c.chain[0].HasRead?
    case OrphanStep(total) => c.orphans > 0 && BetweenCallbacks(c) && w.clock <= total
  }

  function Next(w: World, step: Step): World
    requires Enabled(w, step)
  {
    var c := w.collector;
    match step
    case RegisterStep(service) => World(Register(c, service).0, w.clock)
    case RestoreStep(undo) => World(Restore(c, undo), w.clock)
    case ScrapeStep => World(c.(chain := c.chain + [Waiting]), w.clock)
    case ReadStep(total) => World(c.(chain := [HasRead(total)] + c.chain[1..]), total)
    case AccountStep => World(Account(c, c.chain[0].total), w.clock)
    case OrphanStep(total) => World(AccountOrphan(c, total), total)
  }

  predicate ValidRun(w: World, run: seq<Step>)
    decreases |run|
  {
    run == [] || (Enabled(w, run[0]) && ValidRun(Next(w, run[0]), run[1..]))
  }

  function Run(w: World, run: seq<Step>): World
    requires ValidRun(w, run)
    decreases |run|
  {
    if run == [] then w else Run(Next(w, run[0]), run[1..])
  }

  /** Everything accounted since the metrics were registered is in exactly one
      place: a live counter value, the retired total or a dropped counter. */
  ghost predicate Conserved(w: World) {
    var c := w.collector;
    && Sum(c.cpu) + c.retired + c.lost == c.lastCpu
    && c.lost >= 0.0
    && 0.0 <= c.lastCpu <= w.clock
    && (!c.registered ==> c.cpu == map[] && c.chain == [])
    && (c.registered ==> c.service.Some?)
    && (forall k <- c.cpu :: c.cpu[k] >= 0.0)
    && (forall i | 1 <= i < |c.chain| :: c.chain[i].Waiting?)
    && (c.chain != [] && c.chain[0].HasRead? ==> c.lastCpu <= c.chain[0].total <= w.clock)
  }

  lemma DropLabelConserves(w: World, service: string)
    requires Conserved(w)
    ensures Conserved(w.(collector := DropLabel(w.collector, service)))
  {
    SumWithout(w.collector.cpu, service);
  }

  lemma AccountConserves(w: World)
    requires Conserved(w) && Enabled(w, AccountStep)
    ensures Conserved(Next(w, AccountStep))
  {
    var c := w.collector;
    var total := c.chain[0].total;
    var service := c.service.GetOr("");
    SumWith(c.cpu, service, ValueAt(c.cpu, service) + (total - c.lastCpu));
  }

  lemma StepConserves(w: World, step: Step)
    requires Conserved(w) && Enabled(w, step)
    ensures Conserved(Next(w, step))
  {
    var c := w.collector;
    match step
    case RegisterStep(service) =>
      if c.registered && c.service != Some(service) { DropLabelConserves(w, c.service.GetOr("")); }
    case RestoreStep(undo) =>
      if undo.ServiceSwap? {
        DropLabelConserves(w.(collector := c.(service := Some(undo.priorService))), c.service.GetOr(""));
      }
    case ScrapeStep =>
    case ReadStep(_) =>
    case AccountStep => AccountConserves(w);
    case OrphanStep(_) =>
  }

  /** However scrapes, relabellings, rollbacks and the callbacks of dropped
      counters interleave: live counter values, retired values and what went to
      dropped counters add up to the last cumulative CPU time accounted, so no
      part of it is counted twice. */
  lemma {:induction false} CpuConserved(w: World, run: seq<Step>)
    requires Conserved(w) && ValidRun(w, run)
    ensures Conserved(Run(w, run))
    decreases |run|
  {
    if run != [] {
      StepConserves(w, run[0]);
      CpuConserved(Next(w, run[0]), run[1..]);
    }
  }

  /** Where the assumption on the clock matters: accounting a reading keeps the
      balance exactly when the reading is not below the previous one. */
  lemma BalanceNeedsMonotoneClock(s: State)
    requires s.chain != [] && s.chain[0].HasRead? && Sum(s.cpu) + s.retired + s.lost == s.lastCpu
    ensures var total := s.chain[0].total;
            var after := Account(s, total);
            Sum(after.cpu) + after.retired + after.lost == after.lastCpu <==> s.lastCpu <= total
  {
    var total := s.chain[0].total;
    var service := s.service.GetOr("");
    SumWith(s.cpu, service, ValueAt(s.cpu, service) + (total - s.lastCpu));
  }

  // ---- What each service gets ----

  /** The service a collector is registered for after a step, if any: that of the
      last registration or undone swap. */
  function ServiceAfter(service: Option<string>, step: Step): Option<string> {
    match step
    case RegisterStep(next) => Some(next)
    case RestoreStep(ServiceSwap(prior)) => Some(prior)
    case RestoreStep(FreshlyRegistered) => None
    case _ => service
  }

  function ServiceAfterAll(service: Option<string>, run: seq<Step>): Option<string>
    decreases |run|
  {
    if run == [] then service else ServiceAfterAll(ServiceAfter(service, run[0]), run[1..])
  }

  /** Whether a step takes service k's value off the registry: with all others when
      the metrics are dropped or registered, alone when k is relabelled away. */
  predicate TakesOff(service: Option<string>, step: Step, k: string) {
    match step
    case RegisterStep(next) => service == None || (service == Some(k) && k != next)
    case RestoreStep(ServiceSwap(prior)) => service == Some(k) && k != "" && k != prior
    case RestoreStep(FreshlyRegistered) => true
    case _ => false
  }

  /** What a step adds to service k: the CPU time since the last accounting, if
      it accounts and k is the service registered. */
  function EarnedIn(w: World, step: Step, k: string): real
    requires Enabled(w, step)
  {
    if step.AccountStep? && w.collector.service == Some(k)
    then w.collector.chain[0].total - w.collector.lastCpu else 0.0
  }

  /** What k has earned over a run since its value was last taken off. */
  function Earned(w: World, run: seq<Step>, k: string, sofar: real): real
    requires ValidRun(w, run)
    decreases |run|
  {
    if run == [] then sofar
    else
      Earned(Next(w, run[0]), run[1..], k,
             if TakesOff(w.collector.service, run[0], k) then 0.0 else sofar + EarnedIn(w, run[0], k))
  }

  ghost predicate Balanced(w: World) {
    Conserved(w) && (w.collector.registered <==> w.collector.service.Some?)
  }

  /** A reading is credited to the registered service and to no other. */
  lemma AccountCredits(s: State, total: real, k: string)
    requires s.chain != [] && s.service.Some? && s.lastCpu <= total
    ensures ValueAt(Account(s, total).cpu, k) ==
            ValueAt(s.cpu, k) + if k == s.service.value then total - s.lastCpu else 0.0
  {
  }

  lemma NextCredits(w: World, step: Step, k: string)
    requires Balanced(w) && Enabled(w, step)
    ensures Balanced(Next(w, step))
    ensures Next(w, step).collector.service == ServiceAfter(w.collector.service, step)
    ensures ValueAt(Next(w, step).collector.cpu, k) ==
            if TakesOff(w.collector.service, step, k) then 0.0
            else ValueAt(w.collector.cpu, k) + EarnedIn(w, step, k)
  {
    StepConserves(w, step);
    if step.AccountStep? { AccountCredits(w.collector, w.collector.chain[0].total, k); }
  }

  /** Over any interleaving: the collector is registered for the service of the
      last registration or undone swap, and the counter of every service shows
      exactly the CPU time accounted while it was the registered one, since its
      value was last taken off. */
  lemma {:induction false} ValueIsEarned(w: World, run: seq<Step>, k: string)
    requires Balanced(w) && ValidRun(w, run)
    ensures Run(w, run).collector.service == ServiceAfterAll(w.collector.service, run)
    ensures ValueAt(Run(w, run).collector.cpu, k) == Earned(w, run, k, ValueAt(w.collector.cpu, k))
    decreases |run|
  {
    if run != [] {
      NextCredits(w, run[0], k);
      ValueIsEarned(Next(w, run[0]), run[1..], k);
    }
  }

  // ---- What dropping the metrics with a collect pending costs ----

  /** The metrics are only ever dropped with no collect pending. */
  predicate DropsIdle(w: World, run: seq<Step>)
    requires ValidRun(w, run)
    decreases |run|
  {
    run == [] ||
    ((run[0] == RestoreStep(FreshlyRegistered) ==> w.collector.chain == []) && DropsIdle(Next(w, run[0]), run[1..]))
  }

  /** Then nothing is ever lost: live and retired values alone make up the total. */
  lemma {:induction false} NothingLost(w: World, run: seq<Step>)
    requires Conserved(w) && w.collector.orphans == 0 && w.collector.lost == 0.0
    requires ValidRun(w, run) && DropsIdle(w, run)
    ensures var c := Run(w, run).collector;
            c.orphans == 0 && c.lost == 0.0 && Sum(c.cpu) + c.retired == c.lastCpu
    decreases |run|
  {
    if run != [] {
      StepConserves(w, run[0]);
      NothingLost(Next(w, run[0]), run[1..]);
    }
  }

  /** Where a process starts. */
  predicate AtStart(w: World) {
    w.collector == UNREGISTERED && w.clock == 0.0
  }

  lemma StartConserved(w: World)
    requires AtStart(w)
    ensures Conserved(w) && w.collector.orphans == 0 && w.collector.lost == 0.0
  {
  }

  /** In particular from the start of the process. */
  lemma CpuConservedFromStart(w: World, run: seq<Step>)
    requires AtStart(w) && ValidRun(w, run)
    ensures Conserved(Run(w, run))
  {
    StartConserved(w);
    CpuConserved(w, run);
  }

  lemma NothingLostFromStart(w: World, run: seq<Step>)
    requires AtStart(w) && ValidRun(w, run) && DropsIdle(w, run)
    ensures var c := Run(w, run).collector; Sum(c.cpu) + c.retired == c.lastCpu
  {
    StartConserved(w);
    NothingLost(w, run);
  }

  /** Otherwise an orphan takes away from the live counter exactly the CPU time
      spent since the last accounting, so the two alone still balance exactly
      when that is none and nothing was lost before. */
  lemma OrphanExactly(w: World, total: real)
    requires Conserved(w) && Enabled(w, OrphanStep(total))
    ensures var c, c' := w.collector, Next(w, OrphanStep(total)).collector;
            && c'.lost == c.lost + (total - c.lastCpu)
            && c'.cpu == c.cpu && c'.retired == c.retired
            && (Sum(c'.cpu) + c'.retired == c'.lastCpu <==> c.lost == 0.0 && total == c.lastCpu)
  {
  }

  // ---- What undoing a registration brings back ----

  /** Registering for service and undoing it at once. */
  function ThereAndBack(s: State, service: string): State {
    var (after, undo) := Register(s, service);
    Restore(after, undo)
  }

  ghost predicate GoodCollector(s: State) {
    (s.registered <==> s.service.Some?) && (!s.registered ==> s == UNREGISTERED)
  }

  /** Neither the prior service nor the new one has a counter value to lose. */
  predicate NothingToLose(s: State, service: string) {
    s.service.Some? && s.service.value !in s.cpu && (service == "" || service !in s.cpu)
  }

  /** An undone relabelling brings the collector back exactly when it was for
      the same service, or no counter value was there to be dropped: the prior
      service's value is removed by the swap and never put back. */
  lemma UndoneExactly(s: State, service: string)
    requires GoodCollector(s)
    ensures ThereAndBack(s, service) == s <==> !s.registered || s.service == Some(service) || NothingToLose(s, service)
  {
    if s.registered && s.service != Some(service) {
      var prior := s.service.value;
      if prior in s.cpu {
        assert prior !in ThereAndBack(s, service).cpu;
      } else {
        assert s.cpu - {prior} == s.cpu;
        if service in s.cpu && service != "" {
          assert service !in ThereAndBack(s, service).cpu;
        } else {
          assert s.cpu - {service} == s.cpu || service == "";
        }
      }
    }
  }

  /** For instance: one scrape under "a", a failed install for "b", and the five
      seconds "a" had are gone from its counter. */
  lemma PriorValueGone()
    ensures var s := State(true, Some("a"), 5.0, map["a" := 5.0], [], 0, 0.0, 0.0);
            ThereAndBack(s, "b") == s.(cpu := map[], retired := 5.0)
  {
    assert map["a" := 5.0] - {"a"} - {"b"} == map[];
  }

  /** The same collector but for which part of the accounted total is still live. */
  ghost predicate SameButLive(s: State, t: State) {
    && s.(cpu := map[], retired := 0.0) == t.(cpu := map[], retired := 0.0)
    && Sum(s.cpu) + s.retired == Sum(t.cpu) + t.retired
  }

  lemma DropKeepsTotal(s: State, service: string)
    ensures SameButLive(DropLabel(s, service), s)
  {
    SumWithout(s.cpu, service);
  }

  /** An undone registration changes nothing else. */
  lemma ThereAndBackSame(s: State, service: string)
    requires GoodCollector(s)
    ensures SameButLive(ThereAndBack(s, service), s) && GoodCollector(ThereAndBack(s, service))
  {
    if s.registered && s.service != Some(service) {
      var after := Register(s, service).0;
      DropKeepsTotal(s, s.service.value);
      DropKeepsTotal(after.(service := s.service), service);
    }
  }

  lemma RegisterRespectsSame(s: State, t: State, service: string)
    requires GoodCollector(s) && GoodCollector(t) && SameButLive(s, t)
    ensures SameButLive(Register(s, service).0, Register(t, service).0)
    ensures GoodCollector(Register(s, service).0) && Register(s, service).1 == Register(t, service).1
  {
    if s.registered && s.service != Some(service) {
      DropKeepsTotal(s, s.service.value);
      DropKeepsTotal(t, t.service.value);
    }
  }

  /** A scrape's step taken if it is due, for runs that mix them with installs. */
  function Scraped(s: State, step: Step): State {
    match step
    case ScrapeStep => if s.registered then s.(chain := s.chain + [Waiting]) else s
    case ReadStep(total) =>
      if s.chain != [] && s.chain[0].Waiting? then s.(chain := [HasRead(total)] + s.chain[1..]) else s
    case AccountStep => if s.chain != [] && s.chain[0].HasRead? then Account(s, s.chain[0].total) else s
    case _ => s
  }

  /** Such a step is one of the steps above, wherever that may be taken. */
  lemma ScrapedIsStep(w: World, step: Step)
    requires Enabled(w, step) && (step.ScrapeStep? || step.ReadStep? || step.AccountStep?)
    ensures Scraped(w.collector, step) == Next(w, step).collector
  {
  }

  lemma ScrapedRespectsSame(s: State, t: State, step: Step)
    requires GoodCollector(s) && GoodCollector(t) && SameButLive(s, t)
    ensures SameButLive(Scraped(s, step), Scraped(t, step)) && GoodCollector(Scraped(s, step))
  {
    if step.AccountStep? && s.chain != [] && s.chain[0].HasRead? {
      var service, gained := s.service.GetOr(""), Gained(s, s.chain[0].total);
      SumWith(s.cpu, service, ValueAt(s.cpu, service) + gained);
      SumWith(t.cpu, service, ValueAt(t.cpu, service) + gained);
    }
  }

  /** Undoing a relabelling drops the failed service's value exactly when that
      service has a name: the empty name slips through the guard and keeps it. */
  lemma RestoreDropsExactly(s: State, prior: string)
    requires s.service.Some? && s.service.value != prior && s.service.value in s.cpu
    ensures s.service.value !in Restore(s, ServiceSwap(prior)).cpu <==> s.service.value != ""
  {
  }
}
