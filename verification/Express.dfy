/** installExpress: the shared transaction followed by app.locals, the metrics
    route, the counting middleware and the sentinel, with a catch block that
    deletes the locals and cuts the router stack back. */
module Express {
  import opened Wrappers
  import opened BuildInfo
  import opened NodeProcess
  import opened HttpLabels
  import opened Pending
  import PC = ProcessCollector

  /** A layer of the router stack: ours, with what its closure captured, or the
      consumer's. */
  datatype Layer = MetricsRoute(path: string) | HttpMiddleware(service: string, path: string) | Consumer(id: nat)

  datatype Locals = Locals(
    exempt: Option<set<string>>,
    service: Option<string>,
    version: Option<string>,
    installed: bool)

  const CLEARED := Locals(None, None, None, false)

  /** stack is None until the router is created. */
  datatype App = App(stack: Option<seq<Layer>>, locals: Locals)

  const FRESH := App(None, CLEARED)

  function Layers(a: App): seq<Layer> {
    a.stack.GetOr([])
  }

  /** The steps after the shared ones. As there, an attempt is given the number
      of steps that complete before one throws; it succeeds iff all do. */
  const EXEMPT_SET: nat := 6
  const LOCAL_SERVICE_SET: nat := 7
  const LOCAL_VERSION_SET: nat := 8
  const ROUTE_ADDED: nat := 9
  const MIDDLEWARE_ADDED: nat := 10
  const SENTINEL_SET: nat := 11

  function OwnLayers(service: string, path: string): seq<Layer> {
    [MetricsRoute(path), HttpMiddleware(service, path)]
  }

  // ---- What one attempt promises ----

  function AppAfter(a: App, l: Labels, path: string, done: nat): App {
    if SENTINEL_SET <= done then
      App(Some(Layers(a) + OwnLayers(l.service, path)),
          Locals(Some(ExemptPaths(path)), Some(l.service), Some(l.version), true))
    else
      App(if a.stack.None? && ROUTE_ADDED <= done then Some([]) else a.stack, CLEARED)
  }

  class ExpressApp {
    var stack: Option<seq<Layer>>
    var exempt: Option<set<string>>
    var service: Option<string>
    var version: Option<string>
    var installed: bool

    ghost function View(): App
      reads this
    {
      App(stack, Locals(exempt, service, version, installed))
    }

    constructor ()
      ensures View() == FRESH
    {
      stack, exempt, service, version, installed := None, None, None, None, false;
    }

    /** app.get and app.use: append a layer, creating the router if need be. */
    method Append(layer: Layer)
      modifies this`stack
      ensures stack == Some(old(Layers(View())) + [layer])
    {
      stack := Some(stack.GetOr([]) + [layer]);
    }

    /** The try block after the shared steps. */
    method Wire(l: Labels, path: string, done: nat)
      modifies this
      ensures SENTINEL_SET <= done ==> View() == AppAfter(old(View()), l, path, done)
      ensures old(Layers(View())) <= Layers(View())
      ensures stack.None? <==> old(stack).None? && done < ROUTE_ADDED
    {
      if done < EXEMPT_SET { return; }
      exempt := Some(ExemptPaths(path));
      if done < LOCAL_SERVICE_SET { return; }
      service := Some(l.service);
      if done < LOCAL_VERSION_SET { return; }
      version := Some(l.version);
      if done < ROUTE_ADDED { return; }
      Append(MetricsRoute(path));
      if done < MIDDLEWARE_ADDED { return; }
      Append(HttpMiddleware(l.service, path));
      if done < SENTINEL_SET { return; }
      installed := true;
      assert old(Layers(View())) + [MetricsRoute(path)] + [HttpMiddleware(l.service, path)]
          == old(Layers(View())) + OwnLayers(l.service, path);
    }

    /** The catch block's part on the app. */
    method Unwire(count: nat)
      requires stack.Some? ==> count <= |stack.value|
      modifies this
      ensures View() == App(if old(stack).Some? then Some(old(stack).value[..count]) else None, CLEARED)
    {
      exempt, service, version, installed := None, None, None, false;
      if stack.Some? {
        stack := Some(stack.value[..count]);
      }
    }
  }

  /** One call of installExpress; done is the number of steps that complete. */
  method InstallExpress(proc: NodeProcess, app: ExpressApp, l: Labels, path: string, done: nat) returns (threw: bool)
    requires proc.Valid()
    modifies proc, app
    ensures proc.Valid()
    ensures old(app.installed) ==> !threw && app.View() == old(app.View()) && proc.View() == old(proc.View())
    ensures !old(app.installed) ==>
              && threw == (done < SENTINEL_SET)
              && app.View() == AppAfter(old(app.View()), l, path, done)
              && proc.View() == SharedAfter(old(proc.View()), l, !threw, done)
  {
    if app.installed {
      return false;
    }
    var count := |app.stack.GetOr([])|;
    ghost var before := proc.View();
    var undo := proc.Begin(l, done);
    app.Wire(l, path, done);
    threw := done < SENTINEL_SET;
    if threw {
      assert Layers(app.View())[..count] == old(Layers(app.View()));
      app.Unwire(count);
      assert app.View() == AppAfter(old(app.View()), l, path, done);
      proc.RollBack(undo, before, l, done);
    } else {
      BegunCommits(before, proc.View(), l, done, undo);
    }
  }

  // ---- Requests ----

  /** The services under which the middlewares of a stack will record a request. */
  function Recorders(layers: seq<Layer>, path: string): seq<string> {
    if layers == [] then []
    else
      (if layers[0].HttpMiddleware? && layers[0].path != path then [layers[0].service] else [])
      + Recorders(layers[1..], path)
  }

  /** The route label: the matched template under its router's base path. An
      empty template counts as none. */
  function RouteLabel(baseUrl: string, routePath: Option<string>): string {
    if routePath.GetOr("") == "" then "__unmatched__" else baseUrl + routePath.value
  }

  /** A route mounted in a router is labelled by the base path followed by its
      template; only a request without a template is unmatched. */
  lemma RouteLabelExactly(baseUrl: string, routePath: Option<string>)
    ensures routePath.None? || routePath == Some("") ==> RouteLabel(baseUrl, routePath) == "__unmatched__"
    ensures forall p | routePath == Some(p) && p != "" ::
              && |RouteLabel(baseUrl, routePath)| == |baseUrl| + |p|
              && RouteLabel(baseUrl, routePath)[..|baseUrl|] == baseUrl
              && RouteLabel(baseUrl, routePath)[|baseUrl|..] == p
  {
  }

  function SamplesFor(services: seq<string>, m: Method, route: string, status: StatusCode): (samples: seq<Sample>)
    ensures |samples| == |services|
    ensures forall i | 0 <= i < |services| :: samples[i] == SampleFor(services[i], m, route, status)
  {
    seq(|services|, i requires 0 <= i < |services| => SampleFor(services[i], m, route, status))
  }

  /** The listeners on each response, by the service their closure captured, and
      everything recorded. */
  class Responses {
    var pending: map<nat, seq<string>>
    var samples: seq<Sample>

    constructor ()
      ensures pending == map[] && samples == []
    {
      pending, samples := map[], [];
    }

    /** One middleware sees a request: it listens for finish and close, unless
        the request is for the metrics path. */
    method Listen(id: nat, service: string, metricsPath: string, path: string)
      modifies `pending
      ensures pending == old(pending)[id := ListenersOn(old(pending), id)
                                            + Recorders([HttpMiddleware(service, metricsPath)], path)]
    {
      if id !in pending {
        pending := pending[id := []];
      }
      assert [HttpMiddleware(service, metricsPath)][1..] == [];
      if path == metricsPath {
        assert Recorders([HttpMiddleware(service, metricsPath)], path) == [] + [] == [];
        assert pending[id] + [] == pending[id];
        return;
      }
      assert Recorders([HttpMiddleware(service, metricsPath)], path) == [service] + [] == [service];
      pending := pending[id := pending[id] + [service]];
    }

    /** finish or close fires: the listener that runs removes itself from both
        events and records. */
    method Finalize(id: nat, m: Method, route: string, status: StatusCode)
      requires id in pending && pending[id] != []
      modifies this
      ensures pending == old(pending)[id := old(pending)[id][1..]]
      ensures samples == old(samples) + [SampleFor(old(pending)[id][0], m, route, status)]
    {
      var service := pending[id][0];
      pending := pending[id := pending[id][1..]];
      samples := samples + [SampleFor(service, m, route, status)];
    }
  }

  // ---- Whole runs over any number of apps ----

  /** An attempt, a consumer's route, a consumer clearing the sentinel to install
      again, a request passing an app's stack, finish or close on its response,
      and a step of a scrape. */
  datatype Op =
    | Install(app: nat, labels: Labels, path: string, done: nat)
    | AddRoute(app: nat, id: nat)
    | DropSentinel(app: nat)
    | Request(app: nat, response: nat, reqPath: string)
    | Event(response: nat, method_: Method, baseUrl: string, routePath: Option<string>, status: StatusCode)
    | ScrapeOp(step: PC.Step)

  datatype World = World(shared: Shared, apps: map<nat, App>, pending: map<nat, seq<string>>, samples: seq<Sample>)

  function AppIn(apps: map<nat, App>, a: nat): App {
    if a in apps then apps[a] else FRESH
  }

  function AppOf(w: World, a: nat): App {
    AppIn(w.apps, a)
  }

  function Dropped(a: App): App {
    a.(locals := a.locals.(installed := false))
  }

  function Fired(w: World, id: nat, m: Method, route: string, status: StatusCode): World {
    if id !in w.pending then w
    else w.(pending := w.pending - {id}, samples := w.samples + SamplesFor(w.pending[id], m, route, status))
  }

  function Next(w: World, op: Op): World {
    match op
    case Install(i, l, path, done) =>
      if AppOf(w, i).locals.installed then w
      else
        w.(shared := SharedAfter(w.shared, l, SENTINEL_SET <= done, done),
           apps := w.apps[i := AppAfter(AppOf(w, i), l, path, done)])
    case AddRoute(i, id) =>
      w.(apps := w.apps[i := AppOf(w, i).(stack := Some(Layers(AppOf(w, i)) + [Consumer(id)]))])
    case DropSentinel(i) => w.(apps := w.apps[i := Dropped(AppOf(w, i))])
    case Request(i, id, path) =>
      w.(pending := w.pending[id := ListenersOn(w.pending, id) + Recorders(Layers(AppOf(w, i)), path)])
    case Event(id, m, baseUrl, routePath, status) => Fired(w, id, m, RouteLabel(baseUrl, routePath), status)
    case ScrapeOp(step) => w.(shared := Scraped(w.shared, step))
  }

  function Run(w: World, ops: seq<Op>): World
    decreases |ops|
  {
    if ops == [] then w else Run(Next(w, ops[0]), ops[1..])
  }

  // ---- Failed installs are erasable ----

  predicate FailedInstall(op: Op) {
    op.Install? && op.done < SENTINEL_SET
  }

  function WithoutFailed(ops: seq<Op>): seq<Op> {
    if ops == [] then []
    else if FailedInstall(ops[0]) then WithoutFailed(ops[1..])
    else [ops[0]] + WithoutFailed(ops[1..])
  }

  /** The same app, but for an empty router's existence and for locals left on an
      app that is not installed. */
  predicate SimilarApp(a: App, b: App) {
    && Layers(a) == Layers(b)
    && a.locals.installed == b.locals.installed
    && (a.locals.installed ==> a.locals == b.locals)
  }

  ghost predicate SimilarApps(m: map<nat, App>, n: map<nat, App>) {
    forall a: nat :: SimilarApp(AppIn(m, a), AppIn(n, a))
  }

  ghost predicate Similar(v: World, w: World) {
    && SharedSimilar(v.shared, w.shared)
    && SimilarApps(v.apps, w.apps)
    && v.pending == w.pending && v.samples == w.samples
  }

  lemma NextKeepsGood(w: World, op: Op)
    requires GoodShared(w.shared)
    ensures GoodShared(Next(w, op).shared)
  {
    match op
    case Install(_, l, _, done) =>
      CommitKeepsGood(w.shared, l);
      RollbackKeepsGood(w.shared, l, done);
    case ScrapeOp(step) => ScrapeRespectsSimilar(w.shared, w.shared, step);
    case _ =>
  }

  lemma FailureChangesNothing(w: World, op: Op)
    requires GoodShared(w.shared) && FailedInstall(op) && NulFree(op.labels)
    ensures Similar(Next(w, op), w)
  {
    FailureIsSimilar(w.shared, op.labels, op.done);
  }

  lemma UpdateSimilar(m: map<nat, App>, n: map<nat, App>, i: nat, x: App, y: App)
    requires SimilarApps(m, n) && SimilarApp(x, y)
    ensures SimilarApps(m[i := x], n[i := y])
  {
    var m', n' := m[i := x], n[i := y];
    forall a: nat ensures SimilarApp(AppIn(m', a), AppIn(n', a)) {
      assert SimilarApp(AppIn(m, a), AppIn(n, a));
    }
  }

  lemma NextRespectsSimilar(v: World, w: World, op: Op)
    requires GoodShared(v.shared) && GoodShared(w.shared) && Similar(v, w) && !FailedInstall(op)
    ensures Similar(Next(v, op), Next(w, op))
  {
    match op
    case Install(i, l, path, done) =>
      var a, b := AppOf(v, i), AppOf(w, i);
      assert SimilarApp(AppIn(v.apps, i), AppIn(w.apps, i));
      if !a.locals.installed {
        CommitRespectsSimilar(v.shared, w.shared, l);
        UpdateSimilar(v.apps, w.apps, i, AppAfter(a, l, path, done), AppAfter(b, l, path, done));
      }
    case AddRoute(i, id) =>
      var a, b := AppOf(v, i), AppOf(w, i);
      assert SimilarApp(AppIn(v.apps, i), AppIn(w.apps, i));
      UpdateSimilar(v.apps, w.apps, i, a.(stack := Some(Layers(a) + [Consumer(id)])),
                    b.(stack := Some(Layers(b) + [Consumer(id)])));
    case DropSentinel(i) =>
      assert SimilarApp(AppIn(v.apps, i), AppIn(w.apps, i));
      UpdateSimilar(v.apps, w.apps, i, Dropped(AppOf(v, i)), Dropped(AppOf(w, i)));
    case Request(i, _, _) =>
      assert SimilarApp(AppIn(v.apps, i), AppIn(w.apps, i));
    case Event(_, _, _, _, _) =>
    case ScrapeOp(step) =>
      ScrapeRespectsSimilar(v.shared, w.shared, step);
  }

  lemma {:induction false} ErasableFrom(v: World, w: World, ops: seq<Op>)
    requires GoodShared(v.shared) && GoodShared(w.shared) && Similar(v, w)
    requires forall op <- ops :: op.Install? ==> NulFree(op.labels)
    ensures Similar(Run(v, ops), Run(w, WithoutFailed(ops)))
    decreases |ops|
  {
    if ops != [] {
      var op, rest := ops[0], ops[1..];
      NextKeepsGood(v, op);
      if FailedInstall(op) {
        FailureChangesNothing(v, op);
        SimilarTrans(Next(v, op), v, w);
        ErasableFrom(Next(v, op), w, rest);
      } else {
        NextKeepsGood(w, op);
        NextRespectsSimilar(v, w, op);
        ErasableFrom(Next(v, op), Next(w, op), rest);
        var kept := WithoutFailed(ops);
        assert kept[0] == op && kept[1..] == WithoutFailed(rest);
      }
    }
  }

  lemma SimilarTrans(u: World, v: World, w: World)
    requires Similar(u, v) && Similar(v, w)
    ensures Similar(u, w)
  {
    forall a: nat ensures SimilarApp(AppIn(u.apps, a), AppIn(w.apps, a)) {
      assert SimilarApp(AppIn(u.apps, a), AppIn(v.apps, a)) && SimilarApp(AppIn(v.apps, a), AppIn(w.apps, a));
    }
  }

  /** Failed installs are erasable: whatever fails, wherever, on however many
      apps, with sentinels dropped, requests and scrapes in between, everything
      recorded, service, collector label, build_info, router stacks, sentinels
      and the locals of installed apps end up as if only the successful attempts
      had been made. */
  lemma FailedInstallsErasable(w: World, ops: seq<Op>)
    requires GoodShared(w.shared)
    requires forall op <- ops :: op.Install? ==> NulFree(op.labels)
    ensures Similar(Run(w, ops), Run(w, WithoutFailed(ops)))
  {
    ErasableFrom(w, w, ops);
  }

  /** The one thing a failed attempt changes on an app: it deletes whatever locals
      are there, so layers and locals stay as they were exactly when there were
      none, as on any app whose sentinel has never been dropped. */
  lemma FailureClearsExactly(a: App, l: Labels, path: string, done: nat)
    requires done < SENTINEL_SET
    ensures var a' := AppAfter(a, l, path, done);
            && Layers(a') == Layers(a)
            && (a'.locals == a.locals <==> a.locals == CLEARED)
  {
  }

  /** An app that is not installed has no locals of ours. */
  ghost predicate Tidy(w: World) {
    forall a: nat :: AppOf(w, a).locals.installed || AppOf(w, a).locals == CLEARED
  }

  predicate NoDrops(ops: seq<Op>) {
    forall op <- ops :: !op.DropSentinel?
  }

  lemma {:induction false} TidyAlways(w: World, ops: seq<Op>)
    requires Tidy(w) && NoDrops(ops)
    ensures Tidy(Run(w, ops))
    decreases |ops|
  {
    if ops != [] {
      var w' := Next(w, ops[0]);
      forall a: nat ensures AppOf(w', a).locals.installed || AppOf(w', a).locals == CLEARED {
        assert AppOf(w, a).locals.installed || AppOf(w, a).locals == CLEARED;
        if ops[0].AddRoute? {
          assert AppOf(w, ops[0].app).locals.installed || AppOf(w, ops[0].app).locals == CLEARED;
        }
      }
      TidyAlways(w', ops[1..]);
    }
  }

  lemma {:induction false} WithoutFailedKeepsNoDrops(ops: seq<Op>)
    requires NoDrops(ops)
    ensures NoDrops(WithoutFailed(ops))
  {
    if ops != [] { WithoutFailedKeepsNoDrops(ops[1..]); }
  }

  /** Where sentinels are left alone, all locals agree too. */
  lemma LocalsErasable(w: World, ops: seq<Op>, a: nat)
    requires GoodShared(w.shared) && Tidy(w) && NoDrops(ops)
    requires forall op <- ops :: op.Install? ==> NulFree(op.labels)
    ensures AppOf(Run(w, ops), a).locals == AppOf(Run(w, WithoutFailed(ops)), a).locals
  {
    FailedInstallsErasable(w, ops);
    TidyAlways(w, ops);
    WithoutFailedKeepsNoDrops(ops);
    TidyAlways(w, WithoutFailed(ops));
    assert SimilarApp(AppIn(Run(w, ops).apps, a), AppIn(Run(w, WithoutFailed(ops)).apps, a));
  }

  // ---- The process ----

  /** What a step does to the process: nothing, an attempt that gets past the
      sentinel, or a step of a scrape. */
  function ActionOf(w: World, op: Op): seq<Action> {
    match op
    case Install(i, l, _, done) => if AppOf(w, i).locals.installed then [] else [Attempt(l, done, SENTINEL_SET)]
    case ScrapeOp(step) => [Scrape(step)]
    case _ => []
  }

  function ActionsOf(w: World, ops: seq<Op>): seq<Action>
    decreases |ops|
  {
    if ops == [] then [] else ActionOf(w, ops[0]) + ActionsOf(Next(w, ops[0]), ops[1..])
  }

  lemma SharedActsOnce(w: World, op: Op)
    ensures Next(w, op).shared == ActAll(w.shared, ActionOf(w, op))
  {
  }

  lemma {:induction false} SharedActs(w: World, ops: seq<Op>)
    ensures Run(w, ops).shared == ActAll(w.shared, ActionsOf(w, ops))
    decreases |ops|
  {
    if ops != [] {
      SharedActsOnce(w, ops[0]);
      SharedActs(Next(w, ops[0]), ops[1..]);
      ActAllAppend(w.shared, ActionOf(w, ops[0]), ActionsOf(Next(w, ops[0]), ops[1..]));
    }
  }

  /** Over any run, the process reports the service of the last attempt to succeed
      on any app, and has a build_info sample for each that did. */
  lemma ProcessFollows(w: World, ops: seq<Op>)
    requires GoodShared(w.shared) && forall a <- ActionsOf(w, ops) :: a.Attempt? ==> NulFree(a.labels)
    ensures Reports(w.shared, Run(w, ops).shared, LastSuccess(None, ActionsOf(w, ops)))
    ensures Run(w, ops).shared.ledger.samples.Keys == w.shared.ledger.samples.Keys + Succeeded(ActionsOf(w, ops))
  {
    SharedActs(w, ops);
    ProcessReportsLast(w.shared, ActionsOf(w, ops));
  }

  // ---- What is wired ----

  /** Our own layers, and the consumer's, each in stack order. */
  function Ours(layers: seq<Layer>): seq<Layer> {
    if layers == [] then []
    else (if layers[0].Consumer? then [] else [layers[0]]) + Ours(layers[1..])
  }

  function Theirs(layers: seq<Layer>): seq<nat> {
    if layers == [] then []
    else (if layers[0].Consumer? then [layers[0].id] else []) + Theirs(layers[1..])
  }

  lemma {:induction false} OursAppend(a: seq<Layer>, b: seq<Layer>)
    ensures Ours(a + b) == Ours(a) + Ours(b)
  {
    if a == [] {
      assert a + b == b;
    } else {
      assert (a + b)[1..] == a[1..] + b;
      OursAppend(a[1..], b);
    }
  }

  lemma {:induction false} TheirsAppend(a: seq<Layer>, b: seq<Layer>)
    ensures Theirs(a + b) == Theirs(a) + Theirs(b)
  {
    if a == [] {
      assert a + b == b;
    } else {
      assert (a + b)[1..] == a[1..] + b;
      TheirsAppend(a[1..], b);
    }
  }

  lemma {:induction false} RecordersAppend(a: seq<Layer>, b: seq<Layer>, path: string)
    ensures Recorders(a + b, path) == Recorders(a, path) + Recorders(b, path)
  {
    if a == [] {
      assert a + b == b;
    } else {
      assert (a + b)[1..] == a[1..] + b;
      RecordersAppend(a[1..], b, path);
    }
  }

  lemma OwnLayersAreOurs(service: string, metricsPath: string, path: string)
    ensures Ours(OwnLayers(service, metricsPath)) == OwnLayers(service, metricsPath)
    ensures Theirs(OwnLayers(service, metricsPath)) == []
    ensures Recorders(OwnLayers(service, metricsPath), path) == if path == metricsPath then [] else [service]
  {
    var first, second := [MetricsRoute(metricsPath)], [HttpMiddleware(service, metricsPath)];
    OursAppend(first, second);
    TheirsAppend(first, second);
    RecordersAppend(first, second, path);
    assert OwnLayers(service, metricsPath) == first + second;
    assert first[1..] == [] && second[1..] == [];
    var recorded := if path == metricsPath then [] else [service];
    assert Recorders(second, path) == recorded + [] == recorded;
    assert [] + recorded == recorded;
  }

  /** What a step adds to app a: our layers if it is an attempt that gets past the
      sentinel and succeeds. */
  function WiringOf(w: World, op: Op, a: nat): seq<Layer> {
    if op.Install? && op.app == a && !AppOf(w, a).locals.installed && SENTINEL_SET <= op.done
    then [MetricsRoute(op.path), HttpMiddleware(op.labels.service, op.path)] else []
  }

  /** The layers of the successful attempts on app a, in order. */
  function Wirings(w: World, ops: seq<Op>, a: nat): seq<Layer>
    decreases |ops|
  {
    if ops == [] then [] else WiringOf(w, ops[0], a) + Wirings(Next(w, ops[0]), ops[1..], a)
  }

  function RecordingOf(w: World, op: Op, a: nat, path: string): seq<string> {
    if WiringOf(w, op, a) != [] && op.path != path then [op.labels.service] else []
  }

  /** The services of those whose metrics path is not path, in order. */
  function RecordingServices(w: World, ops: seq<Op>, a: nat, path: string): seq<string>
    decreases |ops|
  {
    if ops == [] then []
    else
      RecordingOf(w, ops[0], a, path)
      + RecordingServices(Next(w, ops[0]), ops[1..], a, path)
  }

  function AddedBy(op: Op, a: nat): seq<nat> {
    if op.AddRoute? && op.app == a then [op.id] else []
  }

  function RoutesAdded(ops: seq<Op>, a: nat): seq<nat> {
    if ops == [] then [] else AddedBy(ops[0], a) + RoutesAdded(ops[1..], a)
  }

  /** What a step appends to the stack of app a, ours or the consumer's. */
  function AddedOf(w: World, op: Op, a: nat): seq<Layer> {
    if op.AddRoute? && op.app == a then [Consumer(op.id)] else WiringOf(w, op, a)
  }

  function Added(w: World, ops: seq<Op>, a: nat): seq<Layer>
    decreases |ops|
  {
    if ops == [] then [] else AddedOf(w, ops[0], a) + Added(Next(w, ops[0]), ops[1..], a)
  }

  lemma NextStack(w: World, op: Op, a: nat)
    ensures Layers(AppOf(Next(w, op), a)) == Layers(AppOf(w, a)) + AddedOf(w, op, a)
  {
    assert Layers(AppOf(w, a)) + [] == Layers(AppOf(w, a));
  }

  lemma Regroup(a: seq<Layer>, b: seq<Layer>, c: seq<Layer>)
    ensures a + b + c == a + (b + c)
  {
  }

  lemma {:induction false} RunStack(w: World, ops: seq<Op>, a: nat)
    ensures Layers(AppOf(Run(w, ops), a)) == Layers(AppOf(w, a)) + Added(w, ops, a)
    decreases |ops|
  {
    var layers := Layers(AppOf(w, a));
    if ops == [] {
      assert layers + [] == layers;
    } else {
      NextStack(w, ops[0], a);
      RunStack(Next(w, ops[0]), ops[1..], a);
      Regroup(layers, AddedOf(w, ops[0], a), Added(Next(w, ops[0]), ops[1..], a));
    }
  }

  lemma AddedOfParts(w: World, op: Op, a: nat, path: string)
    ensures Ours(AddedOf(w, op, a)) == WiringOf(w, op, a)
    ensures Theirs(AddedOf(w, op, a)) == AddedBy(op, a)
    ensures Recorders(AddedOf(w, op, a), path) == RecordingOf(w, op, a, path)
  {
    if op.AddRoute? && op.app == a {
      var route := [Consumer(op.id)];
      assert route[1..] == [];
      assert Ours(route[1..]) == [] && Theirs(route[1..]) == [] && Recorders(route[1..], path) == [];
      assert Theirs(route) == [op.id] + Theirs(route[1..]);
    } else if WiringOf(w, op, a) != [] {
      OwnLayersAreOurs(op.labels.service, op.path, path);
    }
  }

  lemma {:induction false} AddedParts(w: World, ops: seq<Op>, a: nat, path: string)
    ensures Ours(Added(w, ops, a)) == Wirings(w, ops, a)
    ensures Theirs(Added(w, ops, a)) == RoutesAdded(ops, a)
    ensures Recorders(Added(w, ops, a), path) == RecordingServices(w, ops, a, path)
    decreases |ops|
  {
    if ops != [] {
      var first, rest := AddedOf(w, ops[0], a), Added(Next(w, ops[0]), ops[1..], a);
      AddedOfParts(w, ops[0], a, path);
      AddedParts(Next(w, ops[0]), ops[1..], a, path);
      OursAppend(first, rest);
      TheirsAppend(first, rest);
      RecordersAppend(first, rest, path);
    }
  }

  /** Over any run, whatever fails and however often sentinels are dropped: an
      app's own layers are one route and one middleware for each attempt that
      succeeded, in order; its middlewares record a request once for each of
      those with another metrics path; and the consumer's routes are all there. */
  lemma WiredPerSuccess(w: World, ops: seq<Op>, a: nat, path: string)
    ensures var layers, layers' := Layers(AppOf(w, a)), Layers(AppOf(Run(w, ops), a));
            && Ours(layers') == Ours(layers) + Wirings(w, ops, a)
            && Theirs(layers') == Theirs(layers) + RoutesAdded(ops, a)
            && Recorders(layers', path) == Recorders(layers, path) + RecordingServices(w, ops, a, path)
  {
    var layers, added := Layers(AppOf(w, a)), Added(w, ops, a);
    RunStack(w, ops, a);
    AddedParts(w, ops, a, path);
    OursAppend(layers, added);
    TheirsAppend(layers, added);
    RecordersAppend(layers, added, path);
  }

  /** Attempts on app a that got past the sentinel and succeeded. */
  function Successes(w: World, ops: seq<Op>, a: nat): nat
    decreases |ops|
  {
    if ops == [] then 0
    else (if WiringOf(w, ops[0], a) != [] then 1 else 0) + Successes(Next(w, ops[0]), ops[1..], a)
  }

  /** Two layers each: wired once is wired by exactly one success. */
  lemma {:induction false} TwoLayersPerSuccess(w: World, ops: seq<Op>, a: nat)
    ensures |Wirings(w, ops, a)| == 2 * Successes(w, ops, a)
    decreases |ops|
  {
    if ops != [] { TwoLayersPerSuccess(Next(w, ops[0]), ops[1..], a); }
  }

  // ---- Sentinels left alone ----

  /** What an app was installed with. */
  datatype Live = Live(service: string, version: string, path: string)

  /** An installed app serves exactly the metrics path it was installed with and
      has one middleware, for its service and that path, and its locals say so;
      any other app has neither. */
  ghost predicate WiredFor(a: App, live: Option<Live>) {
    match live
    case None => !a.locals.installed && Ours(Layers(a)) == []
    case Some(i) =>
      && a.locals == Locals(Some({i.path, "/health", "/ready", "/healthz"}), Some(i.service), Some(i.version), true)
      && Ours(Layers(a)) == [MetricsRoute(i.path), HttpMiddleware(i.service, i.path)]
  }

  ghost predicate WiredOnce(a: App) {
    exists live :: WiredFor(a, live)
  }

  function LiveAfter(live: Option<Live>, op: Op, a: nat): Option<Live> {
    if live == None && op.Install? && op.app == a && SENTINEL_SET <= op.done
    then Some(Live(op.labels.service, op.labels.version, op.path)) else live
  }

  /** An app that ends up installed carries the locals it started with, if no
      attempt succeeded, and otherwise those of the last success. */
  lemma {:induction false} InstalledByLast(w: World, ops: seq<Op>, a: nat) returns (earlier: seq<Layer>, i: Live)
    requires AppOf(Run(w, ops), a).locals.installed
    ensures var locals := AppOf(Run(w, ops), a).locals;
            if Successes(w, ops, a) == 0 then locals == AppOf(w, a).locals
            else locals == LocalsFor(i) && Wirings(w, ops, a) == earlier + OwnLayers(i.service, i.path)
    decreases |ops|
  {
    earlier, i := [], Live("", "", "");
    if ops != [] {
      var w', rest := Next(w, ops[0]), ops[1..];
      var wired := WiringOf(w, ops[0], a);
      earlier, i := InstalledByLast(w', rest, a);
      if Successes(w', rest, a) == 0 {
        TwoLayersPerSuccess(w', rest, a);
        if wired != [] {
          earlier, i := [], Live(ops[0].labels.service, ops[0].labels.version, ops[0].path);
          assert wired + [] == [] + wired;
        }
      } else {
        assert wired + (earlier + OwnLayers(i.service, i.path)) == wired + earlier + OwnLayers(i.service, i.path);
        earlier := wired + earlier;
      }
    }
  }

  function LocalsFor(i: Live): Locals {
    Locals(Some(ExemptPaths(i.path)), Some(i.service), Some(i.version), true)
  }

  /** An app that starts fresh is wired once after a run, dropped sentinels
      included, exactly when the number of its successful attempts is one and it
      is installed, or none and it is not. */
  lemma WiredOnceExactly(w: World, ops: seq<Op>, a: nat)
    requires AppOf(w, a) == FRESH
    ensures var app := AppOf(Run(w, ops), a);
            WiredOnce(app) <==> Successes(w, ops, a) == if app.locals.installed then 1 else 0
  {
    var app := AppOf(Run(w, ops), a);
    WiredPerSuccess(w, ops, a, "");
    TwoLayersPerSuccess(w, ops, a);
    assert Ours(Layers(app)) == Wirings(w, ops, a);
    if app.locals.installed {
      var earlier, i := InstalledByLast(w, ops, a);
      if Successes(w, ops, a) == 1 {
        assert earlier == [];
        assert WiredFor(app, Some(i));
      }
    } else if Successes(w, ops, a) == 0 {
      assert WiredFor(app, None);
    }
  }

  lemma NextKeepsWiring(w: World, op: Op, a: nat, live: Option<Live>)
    requires WiredFor(AppOf(w, a), live) && !op.DropSentinel?
    ensures WiredFor(AppOf(Next(w, op), a), LiveAfter(live, op, a))
  {
    NextStack(w, op, a);
    AddedOfParts(w, op, a, "");
    OursAppend(Layers(AppOf(w, a)), AddedOf(w, op, a));
  }

  /** Over whole runs that leave sentinels alone, whatever fails: an installed app
      has exactly one metrics route and one middleware, any other app none, and
      the consumer's routes are all there in the order they were added. */
  lemma {:induction false} WiredOnceAlways(w: World, ops: seq<Op>, a: nat)
    requires WiredOnce(AppOf(w, a)) && NoDrops(ops)
    ensures WiredOnce(AppOf(Run(w, ops), a))
    ensures Theirs(Layers(AppOf(Run(w, ops), a))) == Theirs(Layers(AppOf(w, a))) + RoutesAdded(ops, a)
    decreases |ops|
  {
    WiredPerSuccess(w, ops, a, "");
    if ops != [] {
      var live :| WiredFor(AppOf(w, a), live);
      NextKeepsWiring(w, ops[0], a, live);
      WiredOnceAlways(Next(w, ops[0]), ops[1..], a);
    }
  }

  /** A reference that knows no stacks, listeners or failures: which apps are
      live, which responses are still to be recorded, and what was recorded. */
  datatype Reference = Reference(live: map<nat, Live>, open: map<nat, seq<string>>, log: seq<Sample>)

  function LiveOf(r: Reference, a: nat): Option<Live> {
    if a in r.live then Some(r.live[a]) else None
  }

  function RefNext(r: Reference, op: Op): Reference {
    match op
    case Install(a, l, path, done) =>
      if a !in r.live && SENTINEL_SET <= done then r.(live := r.live[a := Live(l.service, l.version, path)]) else r
    case Request(a, id, path) =>
      if a in r.live && path != r.live[a].path
      then r.(open := r.open[id := ListenersOn(r.open, id) + [r.live[a].service]])
      else r
    case Event(id, m, baseUrl, routePath, status) =>
      if id !in r.open then r
      else r.(open := r.open - {id},
              log := r.log + SamplesFor(r.open[id], m, RouteLabel(baseUrl, routePath), status))
    case _ => r
  }

  function RefRun(r: Reference, ops: seq<Op>): Reference
    decreases |ops|
  {
    if ops == [] then r else RefRun(RefNext(r, ops[0]), ops[1..])
  }

  ghost predicate RefinesApps(w: World, r: Reference) {
    forall a: nat :: WiredFor(AppOf(w, a), LiveOf(r, a))
  }

  ghost predicate Refines(w: World, r: Reference) {
    && RefinesApps(w, r)
    && SameListeners(r.open, w.pending)
    && w.samples == r.log
  }

  lemma NextRefinesApps(w: World, r: Reference, op: Op)
    requires RefinesApps(w, r) && !op.DropSentinel?
    ensures RefinesApps(Next(w, op), RefNext(r, op))
  {
    forall a: nat ensures WiredFor(AppOf(Next(w, op), a), LiveOf(RefNext(r, op), a)) {
      assert WiredFor(AppOf(w, a), LiveOf(r, a));
      NextKeepsWiring(w, op, a, LiveOf(r, a));
      assert LiveOf(RefNext(r, op), a) == LiveAfter(LiveOf(r, a), op, a);
    }
  }

  lemma {:induction false} RecordersAreOurs(layers: seq<Layer>, path: string)
    ensures Recorders(layers, path) == Recorders(Ours(layers), path)
  {
    if layers != [] {
      RecordersAreOurs(layers[1..], path);
      var rest := Ours(layers[1..]);
      if layers[0].Consumer? {
        assert [] + rest == rest;
      } else {
        assert ([layers[0]] + rest)[1..] == rest;
      }
    }
  }

  /** The middlewares of an app: one recorder for its service, unless the request
      is for its metrics path or the app is not installed. */
  lemma RecordersOfWired(a: App, live: Option<Live>, path: string)
    requires WiredFor(a, live)
    ensures Recorders(Layers(a), path) ==
            if live.Some? && path != live.value.path then [live.value.service] else []
  {
    RecordersAreOurs(Layers(a), path);
    if live.Some? { OwnLayersAreOurs(live.value.service, live.value.path, path); }
  }

  /** Firing records whatever listens, which may be nothing. */
  lemma FiredIs(w: World, id: nat, m: Method, route: string, status: StatusCode)
    ensures var w' := Fired(w, id, m, route, status);
            && w'.pending == w.pending - {id} && w'.apps == w.apps
            && w'.samples == w.samples + SamplesFor(ListenersOn(w.pending, id), m, route, status)
  {
    if id !in w.pending { assert w.pending - {id} == w.pending; }
  }

  lemma EventRefines(w: World, r: Reference, op: Op)
    requires Refines(w, r) && op.Event?
    ensures Refines(Next(w, op), RefNext(r, op))
  {
    var route := RouteLabel(op.baseUrl, op.routePath);
    FiredIs(w, op.response, op.method_, route, op.status);
    SameListenersWithout(r.open, w.pending, op.response);
    assert ListenersOn(r.open, op.response) == ListenersOn(w.pending, op.response);
    if op.response !in r.open {
      assert r.open - {op.response} == r.open;
      assert w.samples + SamplesFor([], op.method_, route, op.status) == w.samples;
    }
    assert RefinesApps(Next(w, op), RefNext(r, op)) by { NextRefinesApps(w, r, op); }
  }

  lemma RequestRefines(w: World, r: Reference, op: Op)
    requires Refines(w, r) && op.Request?
    ensures Refines(Next(w, op), RefNext(r, op))
  {
    NextRefinesApps(w, r, op);
    assert WiredFor(AppOf(w, op.app), LiveOf(r, op.app));
    RecordersOfWired(AppOf(w, op.app), LiveOf(r, op.app), op.reqPath);
    SameListenersMore(r.open, w.pending, op.response, Recorders(Layers(AppOf(w, op.app)), op.reqPath));
  }

  lemma NextRefines(w: World, r: Reference, op: Op)
    requires Refines(w, r) && !op.DropSentinel?
    ensures Refines(Next(w, op), RefNext(r, op))
  {
    if op.Event? {
      EventRefines(w, r, op);
    } else if op.Request? {
      RequestRefines(w, r, op);
    } else {
      NextRefinesApps(w, r, op);
    }
  }

  /** Over any run that leaves sentinels alone, in any order and multiplicity of
      finish and close: what is recorded is what the reference logs, so each
      request is recorded exactly once by each installed app whose stack it
      passes, unless it is for that app's metrics path, under the service that
      app was installed for, and by any other app never. */
  lemma {:induction false} RecordedOnce(w: World, r: Reference, ops: seq<Op>)
    requires Refines(w, r) && NoDrops(ops)
    ensures Run(w, ops).samples == RefRun(r, ops).log
    decreases |ops|
  {
    if ops != [] {
      NextRefines(w, r, ops[0]);
      RecordedOnce(Next(w, ops[0]), RefNext(r, ops[0]), ops[1..]);
    }
  }

  lemma {:induction false} RunRefinesApps(w: World, r: Reference, ops: seq<Op>)
    requires RefinesApps(w, r) && NoDrops(ops)
    ensures RefinesApps(Run(w, ops), RefRun(r, ops))
    decreases |ops|
  {
    if ops != [] {
      NextRefinesApps(w, r, ops[0]);
      RunRefinesApps(Next(w, ops[0]), RefNext(r, ops[0]), ops[1..]);
    }
  }

  /** Over any run that leaves sentinels alone, an app serves the metrics path and
      records under the service that its first successful attempt asked for, its
      locals give them away together with the version and the exempt paths, and
      an app without a successful attempt serves and records nothing. */
  lemma InstalledAsAsked(shared: Shared, ops: seq<Op>, a: nat)
    requires NoDrops(ops)
    ensures WiredFor(AppOf(Run(World(shared, map[], map[], []), ops), a), FirstSuccess(ops, a))
  {
    var w, r := World(shared, map[], map[], []), Reference(map[], map[], []);
    RunRefinesApps(w, r, ops);
    FirstIsLive(r, ops, a);
    assert WiredFor(AppOf(Run(w, ops), a), LiveOf(RefRun(r, ops), a));
  }

  /** What the first attempt on app a that completes every step asks for. */
  function FirstSuccess(ops: seq<Op>, a: nat): Option<Live> {
    if ops == [] then None
    else
      match ops[0]
      case Install(i, l, path, done) =>
        if i == a && SENTINEL_SET <= done then Some(Live(l.service, l.version, path)) else FirstSuccess(ops[1..], a)
      case _ => FirstSuccess(ops[1..], a)
  }

  lemma {:induction false} FirstIsLive(r: Reference, ops: seq<Op>, a: nat)
    ensures LiveOf(RefRun(r, ops), a) == if a in r.live then Some(r.live[a]) else FirstSuccess(ops, a)
    decreases |ops|
  {
    if ops != [] { FirstIsLive(RefNext(r, ops[0]), ops[1..], a); }
  }

  /** In particular from a world without apps and requests. */
  lemma RecordedOnceFromStart(shared: Shared, ops: seq<Op>)
    requires NoDrops(ops)
    ensures Run(World(shared, map[], map[], []), ops).samples == RefRun(Reference(map[], map[], []), ops).log
  {
    RecordedOnce(World(shared, map[], map[], []), Reference(map[], map[], []), ops);
  }

  /** A consumer who drops the sentinel of an installed app to install again gets
      every request for neither metrics path recorded twice exactly when that
      attempt succeeds. When it fails, such a request is still recorded once, by
      an app that says it is not installed. Either way it is not wired once. */
  lemma DroppedSentinelDoubles(a: App, live: Live, l: Labels, path: string, done: nat, reqPath: string)
    requires WiredFor(a, Some(live)) && reqPath != live.path && reqPath != path
    ensures var again := AppAfter(Dropped(a), l, path, done);
            && !WiredOnce(again)
            && Recorders(Layers(again), reqPath) ==
               [live.service] + if SENTINEL_SET <= done then [l.service] else []
  {
    var own := if SENTINEL_SET <= done then OwnLayers(l.service, path) else [];
    OursAppend(Layers(a), own);
    RecordersAppend(Layers(a), own, reqPath);
    OwnLayersAreOurs(l.service, path, reqPath);
    RecordersOfWired(a, Some(live), reqPath);
    assert Layers(a) + [] == Layers(a);
    var again := AppAfter(Dropped(a), l, path, done);
    assert Layers(again) == Layers(a) + own;
    assert |Ours(Layers(again))| == if SENTINEL_SET <= done then 4 else 2;
  }
}
