/** installNext: http.Server.prototype.emit is replaced by a patch that adds a
    finish/close listener to each response. Clearing the sentinel re-arms the
    install, which must not stack a patch on a patch. */
module NextInstall {
  import opened Wrappers
  import opened BuildInfo
  import opened NodeProcess
  import opened HttpLabels
  import opened Pending
  import opened RouteLabels
  import opened RouteCap

  /** What a patch closure captured. */
  datatype Config = Config(service: string, metricsPath: string, templates: seq<RouteTemplate>, maxRoutes: int)

  /** The live emit: the server's own, or a patch over another emit. */
  datatype Emit = Original | Patch(config: Config, inner: Emit)

  /** A listener waiting on a response for finish or close. */
  datatype Finalizer = Finalizer(config: Config, url: string, method_: Method)

  datatype State = State(
    emit: Emit,
    installed: bool,
    origEmit: Option<Emit>,
    seen: seq<string>,
    pending: map<nat, seq<Finalizer>>,
    samples: seq<Sample>)

  const START := State(Original, false, None, [], map[], [])

  const NOT_FOUND := Finite(404.0)

  // The steps after the shared ones: replacing emit, then writing the globals,
  // the second of them only if it has no value yet.
  const PATCHED: nat := 6
  const SENTINEL_SET: nat := 7
  const ORIGINAL_SAVED: nat := 8

  function TrueEmit(s: State): Emit {
    s.origEmit.GetOr(s.emit)
  }

  // ---- What one attempt promises ----

  predicate Succeeds(saved: bool, done: nat) {
    SENTINEL_SET <= done && (saved || ORIGINAL_SAVED <= done)
  }

  function Attempted(s: State, config: Config, done: nat): State {
    if Succeeds(s.origEmit.Some?, done) then
      s.(emit := Patch(config, TrueEmit(s)), installed := true, origEmit := Some(TrueEmit(s)))
    else
      s.(emit := if PATCHED <= done then TrueEmit(s) else s.emit, installed := s.installed || SENTINEL_SET <= done)
  }

  // ---- Requests ----

  /** The listeners that emitting "request" adds, outermost patch first. */
  function Listeners(emit: Emit, url: string, method_: Method): seq<Finalizer> {
    match emit
    case Original => []
    case Patch(config, inner) =>
      (if Before(url, '?') == config.metricsPath then [] else [Finalizer(config, url, method_)])
      + Listeners(inner, url, method_)
  }

  /** Emitting "request" adds to whatever listens on the response already. */
  function Requested(s: State, id: nat, url: string, method_: Method): State {
    s.(pending := s.pending[id := ListenersOn(s.pending, id) + Listeners(s.emit, url, method_)])
  }

  /** The label of one finished request, and the labels minted after it. */
  function LabelFor(seen: seq<string>, f: Finalizer, status: StatusCode): (seq<string>, string) {
    if status == NOT_FOUND then (seen, UNMATCHED_ROUTE)
    else Cap(seen, BucketRoute(f.url, f.config.templates), f.config.maxRoutes)
  }

  /** One run of a finalizer: labels the request and counts it. */
  function Finalized(s: State, f: Finalizer, status: StatusCode): State {
    var (seen, route) := LabelFor(s.seen, f, status);
    s.(seen := seen, samples := s.samples + [SampleFor(f.config.service, f.method_, route, status)])
  }

  function AllFinalized(s: State, fs: seq<Finalizer>, status: StatusCode): State
    decreases |fs|
  {
    if fs == [] then s else AllFinalized(Finalized(s, fs[0], status), fs[1..], status)
  }

  /** finish or close fires on a response: its listeners run, each removing
      itself from both events first. */
  function Fired(s: State, id: nat, status: StatusCode): State {
    if id !in s.pending then s
    else AllFinalized(s.(pending := s.pending - {id}), s.pending[id], status)
  }

  class NextServer {
    var emit: Emit
    var installed: bool
    var origEmit: Option<Emit>
    var pending: map<nat, seq<Finalizer>>
    var samples: seq<Sample>
    const routes: SeenRoutes

    ghost function View(): State
      reads this, routes
    {
      State(emit, installed, origEmit, routes.seen, pending, samples)
    }

    constructor ()
      ensures View() == START && fresh(routes)
    {
      emit, installed, origEmit, pending, samples := Original, false, None, map[], [];
      routes := new SeenRoutes();
    }

    /** The try block after the shared steps, and the catch block's part here. */
    method Patch(config: Config, done: nat) returns (threw: bool)
      modifies `emit, `installed, `origEmit
      ensures threw <==> !Succeeds(old(origEmit).Some?, done)
      ensures View() == Attempted(old(View()), config, done)
    {
      var orig := origEmit.GetOr(emit);
      if done < PATCHED { return true; }
      label Try: {
        emit := Emit.Patch(config, orig);
        if done < SENTINEL_SET { break Try; }
        installed := true;
        if origEmit.None? {
          if done < ORIGINAL_SAVED { break Try; }
          origEmit := Some(orig);
        }
        return false;
      }
      emit := orig;
      return true;
    }

    /** emit("request"): each patch listens on the response, then calls the
        emit it replaced. */
    method EmitRequest(e: Emit, id: nat, url: string, method_: Method)
      requires id in pending
      modifies `pending
      ensures pending == old(pending)[id := old(pending)[id] + Listeners(e, url, method_)]
      decreases e
    {
      match e {
        case Original =>
          assert pending[id] + [] == pending[id];
        case Patch(config, inner) =>
          if Before(url, '?') != config.metricsPath {
            pending := pending[id := pending[id] + [Finalizer(config, url, method_)]];
          }
          EmitRequest(inner, id, url, method_);
          ghost var own := if Before(url, '?') == config.metricsPath then [] else [Finalizer(config, url, method_)];
          assert old(pending)[id] + own + Listeners(inner, url, method_)
              == old(pending)[id] + (own + Listeners(inner, url, method_));
          assert old(pending)[id] + [] == old(pending)[id];
      }
    }

    method HandleRequest(id: nat, url: string, method_: Method)
      modifies `pending
      ensures View() == Requested(old(View()), id, url, method_)
    {
      if id !in pending {
        pending := pending[id := []];
      }
      EmitRequest(emit, id, url, method_);
    }

    method Finalize(f: Finalizer, status: StatusCode)
      modifies `samples, routes
      ensures View() == Finalized(old(View()), f, status)
    {
      var route := UNMATCHED_ROUTE;
      if status != NOT_FOUND {
        route := routes.CapRoute(BucketRoute(f.url, f.config.templates), f.config.maxRoutes);
      }
      samples := samples + [SampleFor(f.config.service, f.method_, route, status)];
    }
  }

  /** One call of installNext; done is the number of steps that complete. */
  method InstallNext(proc: NodeProcess, server: NextServer, l: Labels, config: Config, done: nat) returns (threw: bool)
    requires proc.Valid()
    requires config.service == l.service
    modifies proc, server
    ensures proc.Valid() && server.routes.seen == old(server.routes.seen)
    ensures old(server.installed) ==> !threw && server.View() == old(server.View()) && proc.View() == old(proc.View())
    ensures !old(server.installed) ==>
              && threw == !Succeeds(old(server.origEmit).Some?, done)
              && server.View() == Attempted(old(server.View()), config, done)
              && proc.View() == SharedAfter(old(proc.View()), l, !threw, done)
  {
    if server.installed {
      return false;
    }
    ghost var before := proc.View();
    var undo := proc.Begin(l, done);
    threw := server.Patch(config, done);
    if threw {
      proc.RollBack(undo, before, l, done);
    } else {
      BegunCommits(before, proc.View(), l, done, undo);
    }
  }

  // ---- Whole runs ----

  datatype Op =
    | Install(config: Config, done: nat)
    | ClearSentinel
    | Request(id: nat, url: string, method_: Method)
    | Event(id: nat, status: StatusCode)

  function Next(s: State, op: Op): State {
    match op
    case Install(config, done) => if s.installed then s else Attempted(s, config, done)
    case ClearSentinel => s.(installed := false)
    case Request(id, url, method_) => Requested(s, id, url, method_)
    case Event(id, status) => Fired(s, id, status)
  }

  function Run(s: State, ops: seq<Op>): State
    decreases |ops|
  {
    if ops == [] then s else Run(Next(s, ops[0]), ops[1..])
  }

  /** The live emit is the server's own, or one patch calling it directly, and
      the saved original is never one of ours. */
  ghost predicate OnePatch(s: State) {
    && (s.emit.Patch? ==> s.emit.inner == Original && s.origEmit.Some?)
    && (s.origEmit.Some? ==> s.origEmit.value == Original)
  }

  lemma {:induction false} FinalizedKeeps(s: State, fs: seq<Finalizer>, status: StatusCode)
    ensures AllFinalized(s, fs, status).(seen := s.seen, samples := s.samples) == s
    decreases |fs|
  {
    if fs != [] { FinalizedKeeps(Finalized(s, fs[0], status), fs[1..], status); }
  }

  lemma NextKeepsOnePatch(s: State, op: Op)
    requires OnePatch(s)
    ensures OnePatch(Next(s, op))
  {
    if op.Event? && op.id in s.pending {
      FinalizedKeeps(s.(pending := s.pending - {op.id}), s.pending[op.id], op.status);
    }
  }

  /** A failed attempt leaves emit as it was exactly when it failed before
      replacing it or emit was the true original: the catch block puts the
      original back, not an earlier patch that a cleared sentinel left live.
      Between the two only globals are assigned, which throws where one of them
      has been made read-only. */
  lemma EmitRestoredExactly(s: State, config: Config, done: nat)
    requires OnePatch(s) && !Succeeds(s.origEmit.Some?, done)
    ensures Attempted(s, config, done).emit == s.emit <==> done < PATCHED || s.emit == Original
  {
  }

  // ---- The sentinel ----

  /** An attempt that sets the sentinel and then throws, saving the original. */
  predicate LeavesSentinel(s: State, op: Op) {
    op.Install? && !s.installed && SENTINEL_SET <= op.done < ORIGINAL_SAVED && s.origEmit.None?
  }

  predicate NoSentinelLeft(s: State, ops: seq<Op>)
    decreases |ops|
  {
    ops == [] || (!LeavesSentinel(s, ops[0]) && NoSentinelLeft(Next(s, ops[0]), ops[1..]))
  }

  /** Installed means patched. */
  predicate Honest(s: State) {
    s.installed ==> s.emit.Patch?
  }

  /** The catch block never clears the sentinel: a step is honest exactly when it
      is not an attempt that throws while saving the original. */
  lemma HonestStepExactly(s: State, op: Op)
    requires OnePatch(s) && Honest(s)
    ensures Honest(Next(s, op)) <==> !LeavesSentinel(s, op)
  {
    if op.Event? && op.id in s.pending {
      FinalizedKeeps(s.(pending := s.pending - {op.id}), s.pending[op.id], op.status);
    }
  }

  /** So over any run without such an attempt. */
  lemma {:induction false} HonestAlways(s: State, ops: seq<Op>)
    requires OnePatch(s) && Honest(s) && NoSentinelLeft(s, ops)
    ensures Honest(Run(s, ops))
    decreases |ops|
  {
    if ops != [] {
      HonestStepExactly(s, ops[0]);
      NextKeepsOnePatch(s, ops[0]);
      HonestAlways(Next(s, ops[0]), ops[1..]);
    }
  }

  lemma {:induction false} InstalledStays(s: State, ops: seq<Op>)
    requires s.installed && forall op <- ops :: !op.ClearSentinel?
    ensures Run(s, ops).installed && Run(s, ops).emit == s.emit
    decreases |ops|
  {
    if ops != [] {
      if ops[0].Event? && ops[0].id in s.pending {
        FinalizedKeeps(s.(pending := s.pending - {ops[0].id}), s.pending[ops[0].id], ops[0].status);
      }
      InstalledStays(Next(s, ops[0]), ops[1..]);
    }
  }

  /** After such an attempt nothing is patched however often it is retried, until
      a consumer clears the sentinel. */
  lemma SentinelLeftSticks(s: State, op: Op, ops: seq<Op>)
    requires OnePatch(s) && LeavesSentinel(s, op) && forall o <- ops :: !o.ClearSentinel?
    ensures Run(Next(s, op), ops).installed && Run(Next(s, op), ops).emit == Original
  {
    InstalledStays(Next(s, op), ops);
  }

  // ---- Counting, against a model without patches ----

  /** A finalizer that has run, and the status it saw. */
  datatype Count = Count(finalizer: Finalizer, status: StatusCode)

  /** live: the configuration new requests are counted under. saved: whether any
      attempt has succeeded. open: what is still to be counted, by response. log:
      what was counted. */
  datatype Reference = Reference(
    live: Option<Config>,
    sentinel: bool,
    saved: bool,
    open: map<nat, seq<Finalizer>>,
    log: seq<Count>)

  const NOTHING := Reference(None, false, false, map[], [])

  function Counts(fs: seq<Finalizer>, status: StatusCode): (counts: seq<Count>)
    ensures |counts| == |fs|
  {
    seq(|fs|, i requires 0 <= i < |fs| => Count(fs[i], status))
  }

  function RefNext(r: Reference, op: Op): Reference {
    match op
    case Install(config, done) =>
      if r.sentinel || done < PATCHED then r
      else if Succeeds(r.saved, done) then r.(live := Some(config), sentinel := true, saved := true)
      else r.(live := None, sentinel := SENTINEL_SET <= done)
    case ClearSentinel => r.(sentinel := false)
    case Request(id, url, method_) =>
      if r.live.Some? && Before(url, '?') != r.live.value.metricsPath
      then r.(open := r.open[id := ListenersOn(r.open, id) + [Finalizer(r.live.value, url, method_)]])
      else r
    case Event(id, status) =>
      r.(open := r.open - {id}, log := r.log + Counts(ListenersOn(r.open, id), status))
  }

  function RefRun(r: Reference, ops: seq<Op>): Reference
    decreases |ops|
  {
    if ops == [] then r else RefRun(RefNext(r, ops[0]), ops[1..])
  }

  /** The bucketed route of a counted request, its configuration's templates first. */
  function Bucket(c: Count): string {
    BucketRoute(c.finalizer.url, c.finalizer.config.templates)
  }

  /** The labels minted by a log of counts: in order, what was not a 404, not
      minted before, and within the cap of its own configuration. */
  function Minted(log: seq<Count>): seq<string> {
    if log == [] then []
    else
      var minted, last := Minted(log[..|log| - 1]), log[|log| - 1];
      if last.status != Finite(404.0) && Bucket(last) !in minted && |minted| < last.finalizer.config.maxRoutes
      then minted + [Bucket(last)] else minted
  }

  /** The route a counted request is shown under. */
  function RouteShown(minted: seq<string>, c: Count): string {
    if c.status == Finite(404.0) then "/__unmatched__"
    else if Bucket(c) in minted || |minted| < c.finalizer.config.maxRoutes then Bucket(c)
    else "/__overflow__"
  }

  function SampleAt(minted: seq<string>, c: Count): Sample {
    SampleFor(c.finalizer.config.service, c.finalizer.method_, RouteShown(minted, c), c.status)
  }

  function SamplesOf(log: seq<Count>): (samples: seq<Sample>)
    ensures |samples| == |log|
  {
    if log == [] then []
    else
      var before := log[..|log| - 1];
      SamplesOf(before) + [SampleAt(Minted(before), log[|log| - 1])]
  }

  lemma LogSnoc(log: seq<Count>, c: Count)
    ensures (Minted(log + [c]), RouteShown(Minted(log), c)) == LabelFor(Minted(log), c.finalizer, c.status)
    ensures SamplesOf(log + [c]) == SamplesOf(log) + [SampleAt(Minted(log), c)]
  {
    assert (log + [c])[..|log|] == log;
  }

  ghost predicate Tallied(s: State, log: seq<Count>) {
    s.seen == Minted(log) && s.samples == SamplesOf(log)
  }

  lemma CountsCons(log: seq<Count>, fs: seq<Finalizer>, status: StatusCode)
    requires fs != []
    ensures log + [Count(fs[0], status)] + Counts(fs[1..], status) == log + Counts(fs, status)
  {
    assert Counts(fs, status) == [Count(fs[0], status)] + Counts(fs[1..], status);
  }

  lemma FinalizedTallied(s: State, log: seq<Count>, f: Finalizer, status: StatusCode)
    requires Tallied(s, log)
    ensures Tallied(Finalized(s, f, status), log + [Count(f, status)])
  {
    LogSnoc(log, Count(f, status));
  }

  lemma {:induction false} AllTallied(s: State, log: seq<Count>, fs: seq<Finalizer>, status: StatusCode)
    requires Tallied(s, log)
    ensures Tallied(AllFinalized(s, fs, status), log + Counts(fs, status))
    decreases |fs|
  {
    if fs == [] {
      assert log + Counts(fs, status) == log;
    } else {
      FinalizedTallied(s, log, fs[0], status);
      AllTallied(Finalized(s, fs[0], status), log + [Count(fs[0], status)], fs[1..], status);
      CountsCons(log, fs, status);
    }
  }

  ghost predicate Refines(s: State, r: Reference) {
    && r.live == (match s.emit case Original => None case Patch(config, _) => Some(config))
    && r.sentinel == s.installed
    && r.saved == s.origEmit.Some?
    && SameListeners(r.open, s.pending)
    && Tallied(s, r.log)
  }

  /** Firing runs whatever listens, which may be nothing. */
  lemma FiredIs(s: State, id: nat, status: StatusCode)
    ensures Fired(s, id, status) == AllFinalized(s.(pending := s.pending - {id}), ListenersOn(s.pending, id), status)
  {
    if id !in s.pending { assert s.pending - {id} == s.pending; }
  }

  lemma EventRefines(s: State, r: Reference, id: nat, status: StatusCode)
    requires Refines(s, r)
    ensures Refines(Fired(s, id, status), RefNext(r, Event(id, status)))
  {
    var fs := ListenersOn(s.pending, id);
    var rest := s.(pending := s.pending - {id});
    assert ListenersOn(r.open, id) == fs;
    FiredIs(s, id, status);
    FinalizedKeeps(rest, fs, status);
    AllTallied(rest, r.log, fs, status);
    SameListenersWithout(r.open, s.pending, id);
  }

  lemma OnePatchListeners(s: State, url: string, method_: Method)
    requires OnePatch(s)
    ensures Listeners(s.emit, url, method_) ==
            if s.emit.Patch? && Before(url, '?') != s.emit.config.metricsPath
            then [Finalizer(s.emit.config, url, method_)] else []
  {
    assert Listeners(Original, url, method_) == [];
  }

  lemma RequestRefines(s: State, r: Reference, id: nat, url: string, method_: Method)
    requires OnePatch(s) && Refines(s, r)
    ensures Refines(Requested(s, id, url, method_), RefNext(r, Request(id, url, method_)))
  {
    OnePatchListeners(s, url, method_);
    SameListenersMore(r.open, s.pending, id, Listeners(s.emit, url, method_));
  }

  lemma NextRefines(s: State, r: Reference, op: Op)
    requires OnePatch(s) && Refines(s, r)
    ensures Refines(Next(s, op), RefNext(r, op))
  {
    match op
    case Install(_, _) =>
    case ClearSentinel =>
    case Request(id, url, method_) => RequestRefines(s, r, id, url, method_);
    case Event(id, status) => EventRefines(s, r, id, status);
  }

  /** Whatever installs, re-arms, failures, requests and finish/close events
      happen, in any order and multiplicity: every emission of a request that
      arrived while patched and not for the metrics path is counted exactly once
      when its response finishes, under the configuration it arrived under, and
      the samples, route labels included, are those of that log of counts. */
  lemma {:induction false} CountsRefine(s: State, r: Reference, ops: seq<Op>)
    requires OnePatch(s) && Refines(s, r)
    ensures OnePatch(Run(s, ops)) && Refines(Run(s, ops), RefRun(r, ops))
    decreases |ops|
  {
    if ops != [] {
      NextKeepsOnePatch(s, ops[0]);
      NextRefines(s, r, ops[0]);
      CountsRefine(Next(s, ops[0]), RefNext(r, ops[0]), ops[1..]);
    }
  }

  lemma CountsRefineFromStart(ops: seq<Op>)
    ensures Tallied(Run(START, ops), RefRun(NOTHING, ops).log)
  {
    CountsRefine(START, NOTHING, ops);
  }

  // ---- The series bound over whole runs ----

  ghost predicate ConfigsCapped(s: State, n: nat) {
    && (s.emit.Patch? ==> s.emit.config.maxRoutes <= n)
    && (forall id <- s.pending :: forall f <- s.pending[id] :: f.config.maxRoutes <= n)
  }

  ghost predicate Labelled(s: State, n: nat) {
    && |s.seen| <= n
    && forall x <- s.samples :: IsMethodLabel(x.method_) && IsRouteLabel(x.route, s.seen) && x.status in STATUSES
  }

  lemma FinalizedLabelled(s: State, f: Finalizer, status: StatusCode, n: nat)
    requires Labelled(s, n) && f.config.maxRoutes <= n
    ensures Labelled(Finalized(s, f, status), n)
  {
    StatusBucketed(status);
    var s' := Finalized(s, f, status);
    assert forall route <- s.seen :: route in s'.seen;
  }

  lemma {:induction false} AllFinalizedLabelled(s: State, fs: seq<Finalizer>, status: StatusCode, n: nat)
    requires Labelled(s, n) && forall f <- fs :: f.config.maxRoutes <= n
    ensures Labelled(AllFinalized(s, fs, status), n)
    decreases |fs|
  {
    if fs != [] {
      FinalizedLabelled(s, fs[0], status, n);
      AllFinalizedLabelled(Finalized(s, fs[0], status), fs[1..], status, n);
    }
  }

  lemma NextLabelled(s: State, op: Op, n: nat)
    requires OnePatch(s) && Labelled(s, n) && ConfigsCapped(s, n)
    requires op.Install? ==> op.config.maxRoutes <= n
    ensures Labelled(Next(s, op), n) && ConfigsCapped(Next(s, op), n)
  {
    match op
    case Install(_, _) =>
    case ClearSentinel =>
    case Request(id, url, method_) =>
      assert Listeners(Original, url, method_) == [];
      assert forall f <- ListenersOn(s.pending, id) :: f.config.maxRoutes <= n;
    case Event(id, status) =>
      if id in s.pending {
        var rest := s.(pending := s.pending - {id});
        FinalizedKeeps(rest, s.pending[id], status);
        AllFinalizedLabelled(rest, s.pending[id], status, n);
      }
  }

  // ---- What the sentinels mean ----

  predicate Plain(c: Config) { c.templates == [] }

  /** Every configuration in use is without templates. */
  ghost predicate AllPlain(r: Reference) {
    && (r.live.Some? ==> Plain(r.live.value))
    && (forall id: nat :: forall f <- ListenersOn(r.open, id) :: Plain(f.config))
    && (forall c <- r.log :: Plain(c.finalizer.config))
  }

  lemma NextAllPlain(r: Reference, op: Op)
    requires AllPlain(r) && (op.Install? ==> Plain(op.config))
    ensures AllPlain(RefNext(r, op))
  {
    if op.Event? {
      assert forall f <- ListenersOn(r.open, op.id) :: Plain(f.config);
    }
    var r' := RefNext(r, op);
    forall id: nat ensures forall f <- ListenersOn(r'.open, id) :: Plain(f.config) {
      assert forall f <- ListenersOn(r.open, id) :: Plain(f.config);
    }
  }

  lemma {:induction false} AllPlainAlways(r: Reference, ops: seq<Op>)
    requires AllPlain(r) && forall op <- ops :: op.Install? ==> Plain(op.config)
    ensures AllPlain(RefRun(r, ops))
    decreases |ops|
  {
    if ops != [] {
      NextAllPlain(r, ops[0]);
      AllPlainAlways(RefNext(r, ops[0]), ops[1..]);
    }
  }

  /** No minted label is a sentinel. */
  predicate SentinelFree(seen: seq<string>) {
    OVERFLOW_ROUTE !in seen && UNMATCHED_ROUTE !in seen
  }

  lemma {:induction false} MintedSentinelFree(log: seq<Count>)
    requires forall c <- log :: Plain(c.finalizer.config)
    ensures SentinelFree(Minted(log))
  {
    if log != [] {
      var last := log[|log| - 1];
      MintedSentinelFree(log[..|log| - 1]);
      assert Plain(last.finalizer.config);
      NeverSentinel(last.finalizer.url);
    }
  }

  lemma {:induction false} SampleOfCount(log: seq<Count>, i: nat)
    requires i < |log|
    ensures SamplesOf(log)[i] == SampleAt(Minted(log[..i]), log[i])
  {
    var before := log[..|log| - 1];
    if i < |log| - 1 {
      SampleOfCount(before, i);
      assert before[..i] == log[..i];
    }
  }

  /** The label came too late: it was not minted before, and the cap was reached. */
  predicate TooLate(minted: seq<string>, c: Count) {
    Bucket(c) !in minted && |minted| >= c.finalizer.config.maxRoutes
  }

  /** Over any run, whatever the templates: each sample is labelled by the bucketed
      route of its URL under the templates of the configuration it arrived under,
      unless its response was a 404 or that label came too late. */
  lemma SamplesShowRoutes(ops: seq<Op>, i: nat)
    requires i < |Run(START, ops).samples|
    ensures var log, x := RefRun(NOTHING, ops).log, Run(START, ops).samples[i];
            && |log| == |Run(START, ops).samples|
            && x == SampleFor(log[i].finalizer.config.service, log[i].finalizer.method_, x.route, log[i].status)
            && x.route == if log[i].status == Finite(404.0) then "/__unmatched__"
                          else if TooLate(Minted(log[..i]), log[i]) then "/__overflow__"
                          else BucketRoute(log[i].finalizer.url, log[i].finalizer.config.templates)
  {
    CountsRefineFromStart(ops);
    SampleOfCount(RefRun(NOTHING, ops).log, i);
  }

  /** So a consumer's template decides the label of what it is the first to match. */
  lemma TemplateDecides(ops: seq<Op>, i: nat, t: nat)
    requires i < |Run(START, ops).samples| && |RefRun(NOTHING, ops).log| == |Run(START, ops).samples|
    requires var c := RefRun(NOTHING, ops).log[i];
             && |c.finalizer.url| <= 8192 && PathOf(c.finalizer.url) !in ["", "/"]
             && FirstMatch(PathOf(c.finalizer.url), c.finalizer.config.templates, t)
             && c.status != Finite(404.0) && !TooLate(Minted(RefRun(NOTHING, ops).log[..i]), c)
    ensures Run(START, ops).samples[i].route == RefRun(NOTHING, ops).log[i].finalizer.config.templates[t].template
  {
    var f := RefRun(NOTHING, ops).log[i].finalizer;
    SamplesShowRoutes(ops, i);
    FirstTemplateIsFirst(PathOf(f.url), f.config.templates);
  }

  lemma SentinelMeans(minted: seq<string>, c: Count)
    requires SentinelFree(minted) && Plain(c.finalizer.config)
    ensures SampleAt(minted, c).route == UNMATCHED_ROUTE <==> c.status == NOT_FOUND
    ensures SampleAt(minted, c).route == OVERFLOW_ROUTE <==> c.status != NOT_FOUND && TooLate(minted, c)
  {
    NeverSentinel(c.finalizer.url);
    SentinelsDiffer();
  }

  /** Over any run without templates the two sentinels mean one thing each: a
      sample is unmatched exactly when its response was a 404, and overflowed
      exactly when its label came too late. No URL can forge either. */
  lemma SentinelsUnambiguous(ops: seq<Op>, i: nat)
    requires forall op <- ops :: op.Install? ==> Plain(op.config)
    requires i < |Run(START, ops).samples|
    ensures var log := RefRun(NOTHING, ops).log;
            var route := Run(START, ops).samples[i].route;
            && |log| == |Run(START, ops).samples|
            && (route == UNMATCHED_ROUTE <==> log[i].status == NOT_FOUND)
            && (route == OVERFLOW_ROUTE <==> log[i].status != NOT_FOUND && TooLate(Minted(log[..i]), log[i]))
  {
    var log := RefRun(NOTHING, ops).log;
    CountsRefineFromStart(ops);
    AllPlainAlways(NOTHING, ops);
    MintedSentinelFree(log[..i]);
    SamplesShowRoutes(ops, i);
    SentinelMeans(Minted(log[..i]), log[i]);
  }

  // ---- The number of series ----

  function Triples(samples: seq<Sample>): set<((string, string), string)> {
    set x | x in samples :: ((x.method_, x.route), x.status)
  }

  lemma {:induction false} LabelledAlways(s: State, ops: seq<Op>, n: nat)
    requires OnePatch(s) && Labelled(s, n) && ConfigsCapped(s, n)
    requires forall op <- ops :: op.Install? ==> op.config.maxRoutes <= n
    ensures Labelled(Run(s, ops), n)
    decreases |ops|
  {
    if ops != [] {
      NextKeepsOnePatch(s, ops[0]);
      NextLabelled(s, ops[0], n);
      LabelledAlways(Next(s, ops[0]), ops[1..], n);
    }
  }

  /** With every maxRoutes at most n, a process never has more than 10 (n + 2) 5
      distinct (method, route, status) triples, whatever it is sent. */
  lemma SeriesBounded(ops: seq<Op>, n: nat)
    requires forall op <- ops :: op.Install? ==> op.config.maxRoutes <= n
    ensures |Triples(Run(START, ops).samples)| <= 10 * (n + 2) * 5
  {
    var s := Run(START, ops);
    LabelledAlways(START, ops, n);
    SeriesBound(Triples(s.samples), s.seen, n);
  }
}
