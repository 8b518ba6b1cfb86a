/** installHono: Hono cannot unregister a handler, so the middleware and the
    route are wired at most once per app and gated on a live flag. A failed
    attempt leaves its wiring behind, inert. */
module Hono {
  import opened Wrappers
  import opened BuildInfo
  import opened NodeProcess
  import opened HttpLabels

  // ---- The absolute metrics path ----

  predicate AllSlashes(s: string) { forall c <- s :: c == '/' }

  /** s without its longest suffix of slashes. */
  function Stripped(s: string): string {
    if s != "" && s[|s| - 1] == '/' then Stripped(s[..|s| - 1]) else s
  }

  method StripTrailingSlashes(s: string) returns (t: string)
    ensures t == Stripped(s)
    ensures exists end :: 0 <= end <= |s| && t == s[..end] && AllSlashes(s[end..])
    ensures t != "" ==> t[|t| - 1] != '/'
  {
    var end := |s|;
    assert s[..end] == s;
    while end > 0 && s[end - 1] == '/'
      invariant 0 <= end <= |s|
      invariant AllSlashes(s[end..])
      invariant Stripped(s[..end]) == Stripped(s)
    {
      assert s[..end][..end - 1] == s[..end - 1];
      assert s[end - 1..] == [s[end - 1]] + s[end..];
      end := end - 1;
    }
    t := s[..end];
  }

  /** The URL path the endpoint answers on, under the app's basePath. */
  function AbsolutePath(basePath: string, path: string): string {
    if basePath != "" && basePath != "/" then Stripped(basePath) + path else path
  }

  lemma {:induction false} StrippedSlashes(root: string, slashes: string)
    requires AllSlashes(slashes) && (root != "" ==> root[|root| - 1] != '/')
    ensures Stripped(root + slashes) == root
  {
    var s := root + slashes;
    if slashes == "" {
      assert s == root;
    } else {
      var init := slashes[..|slashes| - 1];
      assert s[|s| - 1] == slashes[|slashes| - 1] && slashes[|slashes| - 1] in slashes;
      assert s[..|s| - 1] == root + init;
      assert forall c <- init :: c in slashes;
      StrippedSlashes(root, init);
    }
  }

  /** Under a base path the endpoint answers below it, however many slashes it
      ends in, and at the root under the metrics path itself. */
  lemma AbsolutePathExactly(root: string, slashes: string, path: string)
    requires AllSlashes(slashes) && (root != "" ==> root[|root| - 1] != '/')
    ensures AbsolutePath(root + slashes, path) == root + path
  {
    StrippedSlashes(root, slashes);
    if root == "" {
      assert root + path == path;
    } else {
      assert (root + slashes)[|root| - 1] != '/';
    }
  }

  // ---- State ----

  /** A registered handler, with what its closure captured. */
  datatype Handler = Middleware(service: string) | Route(path: string)

  datatype Props = Props(exempt: Option<set<string>>, service: Option<string>, version: Option<string>,
                         path: Option<string>, installed: bool)

  const CLEARED := Props(None, None, None, None, false)

  /** What is known of a request once it is answered. */
  datatype Response = Response(method_: Method, routePath: string, status: StatusCode)

  /** pending: for each request in flight, the closures that will record it
      when it finishes. recorded: everything recorded so far. */
  datatype App = App(
    props: Props,
    mwInstalled: bool,
    routeInstalled: bool,
    handlers: seq<Handler>,
    pending: map<nat, seq<string>>,
    recorded: seq<Sample>)

  const FRESH := App(CLEARED, false, false, [], map[], [])

  // The steps after the shared ones: four properties, then each registration and
  // its flag, which are skipped when the flag is set already, then the sentinel.
  // An attempt throws at the first step it does not skip with a number above done.
  const EXEMPT_SET: nat := 6
  const LOCAL_SERVICE_SET: nat := 7
  const LOCAL_VERSION_SET: nat := 8
  const LOCAL_PATH_SET: nat := 9
  const MIDDLEWARE_ADDED: nat := 10
  const MIDDLEWARE_FLAGGED: nat := 11
  const ROUTE_ADDED: nat := 12
  const ROUTE_FLAGGED: nat := 13
  const SENTINEL_SET: nat := 14

  /** The service closures of the wired middlewares. */
  function Services(handlers: seq<Handler>): seq<string> {
    if handlers == [] then []
    else (if handlers[0].Middleware? then [handlers[0].service] else []) + Services(handlers[1..])
  }

  function Paths(handlers: seq<Handler>): seq<string> {
    if handlers == [] then []
    else (if handlers[0].Route? then [handlers[0].path] else []) + Paths(handlers[1..])
  }

  /** A middleware passes a request on untouched unless the app is live and the
      request is not for the metrics path. */
  predicate Gate(props: Props, path: string) {
    props.installed && path != props.path.GetOr("/metrics")
  }

  /** Hono reports a middleware's own pattern when no route matched; it never
      becomes a label. */
  function RouteLabel(routePath: string): (shown: string)
    ensures routePath in ["", "/*", "*"] ==> shown == "__unmatched__"
    ensures routePath !in ["", "/*", "*"] ==> shown == routePath
  {
    if routePath != "" && routePath != "/*" && routePath != "*" then routePath else "__unmatched__"
  }

  // ---- What one attempt promises ----

  /** The attempt throws between app.use and its flag. */
  predicate StrayMiddleware(a: App, done: nat) {
    !a.mwInstalled && done == MIDDLEWARE_ADDED
  }

  predicate StrayRoute(a: App, done: nat) {
    !a.routeInstalled && done == ROUTE_ADDED
  }

  predicate Succeeds(done: nat) { SENTINEL_SET <= done }

  function HandlersAfter(a: App, l: Labels, path: string, done: nat): seq<Handler> {
    a.handlers
    + (if !a.mwInstalled && MIDDLEWARE_ADDED <= done then [Middleware(l.service)] else [])
    + (if !a.routeInstalled && ROUTE_ADDED <= done then [Route(path)] else [])
  }

  function AppAfter(a: App, basePath: string, l: Labels, path: string, done: nat): App {
    a.(props := if Succeeds(done)
                then Props(Some(ExemptPaths(path)), Some(l.service), Some(l.version),
                           Some(AbsolutePath(basePath, path)), true)
                else CLEARED,
       mwInstalled := a.mwInstalled || MIDDLEWARE_FLAGGED <= done,
       routeInstalled := a.routeInstalled || ROUTE_FLAGGED <= done,
       handlers := HandlersAfter(a, l, path, done))
  }

  /** A request comes in: every middleware that lets it through its gate will
      record it. An id names one request for as long as it is in flight. */
  function Entered(a: App, id: nat, path: string): App {
    if id in a.pending then a
    else a.(pending := a.pending[id := if Gate(a.props, path) then Services(a.handlers) else []])
  }

  /** It finishes: each of them records it, under the live service if any. */
  function Exited(a: App, id: nat, res: Response): App {
    if id !in a.pending then a
    else a.(pending := a.pending - {id}, recorded := a.recorded + Samples(a.props, a.pending[id], res))
  }

  function SampleOf(service: string, res: Response): Sample {
    SampleFor(service, res.method_, RouteLabel(res.routePath), res.status)
  }

  /** A sample describes the response it was made for. */
  lemma SampleDescribesResponse(service: string, res: Response)
    requires res.method_.Name? && IsUpperCaseMethod(res.method_.text) ==> res.method_.upper == res.method_.text
    ensures var x := SampleOf(service, res);
            && x.service == service
            && x.method_ == (if res.method_.Name? && IsUpperCaseMethod(res.method_.upper) then res.method_.upper
                             else "OTHER")
            && x.route == (if res.routePath in ["", "/*", "*"] then "__unmatched__" else res.routePath)
            && x.status == StatusBucket(res.status)
  {
    SampleDescribes(service, res.method_, RouteLabel(res.routePath), res.status);
  }

  function Samples(props: Props, closures: seq<string>, res: Response): seq<Sample> {
    seq(|closures|, i requires 0 <= i < |closures| => SampleOf(props.service.GetOr(closures[i]), res))
  }

  class HonoApp {
    const basePath: string
    var exempt: Option<set<string>>
    var service: Option<string>
    var version: Option<string>
    var path: Option<string>
    var installed: bool
    var mwInstalled: bool
    var routeInstalled: bool
    var handlers: seq<Handler>
    var pending: map<nat, seq<string>>
    var recorded: seq<Sample>

    function PropsView(): Props
      reads `exempt, `service, `version, `path, `installed
    {
      Props(exempt, service, version, path, installed)
    }

    ghost function View(): App
      reads this
    {
      App(PropsView(), mwInstalled, routeInstalled, handlers, pending, recorded)
    }

    constructor (basePath: string)
      ensures View() == FRESH && this.basePath == basePath
    {
      this.basePath := basePath;
      exempt, service, version, path, installed := None, None, None, None, false;
      mwInstalled, routeInstalled, handlers, pending, recorded := false, false, [], map[], [];
    }

    method AbsoluteMetricsPath(metricsPath: string) returns (absolute: string)
      ensures absolute == AbsolutePath(basePath, metricsPath)
    {
      absolute := metricsPath;
      if basePath != "" && basePath != "/" {
        var stripped := StripTrailingSlashes(basePath);
        absolute := stripped + metricsPath;
      }
    }

    /** The try block after the shared steps. */
    method Wire(l: Labels, metricsPath: string, done: nat) returns (threw: bool)
      modifies `exempt, `service, `version, `path, `installed, `mwInstalled, `routeInstalled, `handlers
      ensures threw <==> !Succeeds(done)
      ensures !threw ==> PropsView() == AppAfter(old(View()), basePath, l, metricsPath, done).props
      ensures mwInstalled == (old(mwInstalled) || MIDDLEWARE_FLAGGED <= done)
      ensures routeInstalled == (old(routeInstalled) || ROUTE_FLAGGED <= done)
      ensures handlers == HandlersAfter(old(View()), l, metricsPath, done)
    {
      if done < EXEMPT_SET { return true; }
      exempt := Some(ExemptPaths(metricsPath));
      if done < LOCAL_SERVICE_SET { return true; }
      service := Some(l.service);
      if done < LOCAL_VERSION_SET { return true; }
      version := Some(l.version);
      var absolute := AbsoluteMetricsPath(metricsPath);
      if done < LOCAL_PATH_SET { return true; }
      path := Some(absolute);
      if !mwInstalled {
        if done < MIDDLEWARE_ADDED { return true; }
        handlers := handlers + [Middleware(l.service)];
        if done < MIDDLEWARE_FLAGGED { return true; }
        mwInstalled := true;
      }
      if !routeInstalled {
        if done < ROUTE_ADDED { return true; }
        handlers := handlers + [Route(metricsPath)];
        if done < ROUTE_FLAGGED { return true; }
        routeInstalled := true;
      }
      if done < SENTINEL_SET { return true; }
      installed := true;
      return false;
    }

    /** The catch block's part on the app: the wiring stays. */
    method ClearProps()
      modifies `exempt, `service, `version, `path, `installed
      ensures PropsView() == CLEARED
    {
      exempt, service, version, path, installed := None, None, None, None, false;
    }

    /** Every wired middleware sees the request. */
    method HandleRequest(id: nat, reqPath: string)
      requires id !in pending
      modifies `pending
      ensures View() == Entered(old(View()), id, reqPath)
    {
      pending := pending[id := []];
      if installed {
        var livePath := path.GetOr("/metrics");
        if reqPath != livePath {
          pending := pending[id := Services(handlers)];
        }
      }
    }

    /** The middlewares waiting for the response record it. */
    method FinishRequest(id: nat, res: Response)
      modifies `pending, `recorded
      ensures View() == Exited(old(View()), id, res)
    {
      if id in pending {
        recorded := recorded + Samples(PropsView(), pending[id], res);
        pending := pending - {id};
      }
    }
  }

  /** One call of installHono; done is the number of steps that complete. */
  method InstallHono(proc: NodeProcess, app: HonoApp, l: Labels, path: string, done: nat) returns (threw: bool)
    requires proc.Valid()
    modifies proc, app
    ensures proc.Valid()
    ensures old(app.installed) ==> !threw && app.View() == old(app.View()) && proc.View() == old(proc.View())
    ensures !old(app.installed) ==>
              && threw == !Succeeds(done)
              && app.View() == AppAfter(old(app.View()), app.basePath, l, path, done)
              && proc.View() == SharedAfter(old(proc.View()), l, !threw, done)
  {
    if app.installed {
      return false;
    }
    ghost var before := proc.View();
    var undo := proc.Begin(l, done);
    threw := app.Wire(l, path, done);
    if threw {
      app.ClearProps();
      assert app.View() == AppAfter(old(app.View()), app.basePath, l, path, done);
      proc.RollBack(undo, before, l, done);
    } else {
      assert app.View() == AppAfter(old(app.View()), app.basePath, l, path, done);
      BegunCommits(before, proc.View(), l, done, undo);
    }
  }

  // ---- Whole runs ----

  datatype Op =
    | Install(labels: Labels, path: string, done: nat)
    | Enter(id: nat, reqPath: string)
    | Exit(id: nat, res: Response)
    | DropSentinel

  datatype World = World(shared: Shared, app: App)

  /** A consumer deletes simsysMetricsInstalled, to install again. */
  function Disarmed(a: App): App {
    a.(props := a.props.(installed := false))
  }

  function Next(w: World, basePath: string, op: Op): World {
    match op
    case Install(l, path, done) =>
      if w.app.props.installed then w
      else World(SharedAfter(w.shared, l, Succeeds(done), done), AppAfter(w.app, basePath, l, path, done))
    case Enter(id, reqPath) => World(w.shared, Entered(w.app, id, reqPath))
    case Exit(id, res) => World(w.shared, Exited(w.app, id, res))
    case DropSentinel => World(w.shared, Disarmed(w.app))
  }

  function Run(w: World, basePath: string, ops: seq<Op>): World
    decreases |ops|
  {
    if ops == [] then w else Run(Next(w, basePath, ops[0]), basePath, ops[1..])
  }

  /** What an attempt that is not a no-op does to the process. */
  function ActionOf(w: World, op: Op): seq<Action> {
    if op.Install? && !w.app.props.installed then [Attempt(op.labels, op.done, SENTINEL_SET)] else []
  }

  function ActionsOf(w: World, basePath: string, ops: seq<Op>): seq<Action>
    decreases |ops|
  {
    if ops == [] then [] else ActionOf(w, ops[0]) + ActionsOf(Next(w, basePath, ops[0]), basePath, ops[1..])
  }

  lemma {:induction false} SharedActs(w: World, basePath: string, ops: seq<Op>)
    ensures Run(w, basePath, ops).shared == ActAll(w.shared, ActionsOf(w, basePath, ops))
    decreases |ops|
  {
    if ops != [] {
      SharedActs(Next(w, basePath, ops[0]), basePath, ops[1..]);
      ActAllAppend(w.shared, ActionOf(w, ops[0]), ActionsOf(Next(w, basePath, ops[0]), basePath, ops[1..]));
    }
  }

  /** Over any run, the process reports the service of the last attempt to succeed. */
  lemma ProcessFollows(w: World, basePath: string, ops: seq<Op>)
    requires GoodShared(w.shared) && forall a <- ActionsOf(w, basePath, ops) :: a.Attempt? ==> NulFree(a.labels)
    ensures Reports(w.shared, Run(w, basePath, ops).shared, LastSuccess(None, ActionsOf(w, basePath, ops)))
  {
    SharedActs(w, basePath, ops);
    ProcessReportsLast(w.shared, ActionsOf(w, basePath, ops));
  }

  /** At most one middleware and one route are wired, exactly where flagged; an
      installed app has both, and no request is recorded twice. */
  ghost predicate WiredAtMostOnce(a: App) {
    && |Services(a.handlers)| == (if a.mwInstalled then 1 else 0)
    && |Paths(a.handlers)| == (if a.routeInstalled then 1 else 0)
    && (a.props.installed ==> a.mwInstalled && a.routeInstalled && a.props.service.Some?)
    && (forall id <- a.pending :: |a.pending[id]| <= 1)
  }

  /** Besides, only an installed app leaves anything on itself or on a request. */
  ghost predicate Orderly(a: App) {
    && WiredAtMostOnce(a)
    && (!a.props.installed ==> a.props == CLEARED && forall id <- a.pending :: a.pending[id] == [])
  }

  /** And a wired route means installed, with its path equal to the live path. */
  ghost predicate Inv(a: App, basePath: string) {
    && Orderly(a)
    && (a.routeInstalled <==> a.props.installed)
    && (a.props.installed ==> a.props.path == Some(AbsolutePath(basePath, Paths(a.handlers)[0])))
  }

  lemma {:induction false} ServicesAppend(a: seq<Handler>, b: seq<Handler>)
    ensures Services(a + b) == Services(a) + Services(b)
  {
    if a == [] {
      assert a + b == b;
    } else {
      assert (a + b)[1..] == a[1..] + b && (a + b)[0] == a[0];
      ServicesAppend(a[1..], b);
    }
  }

  lemma {:induction false} PathsAppend(a: seq<Handler>, b: seq<Handler>)
    ensures Paths(a + b) == Paths(a) + Paths(b)
  {
    if a == [] {
      assert a + b == b;
    } else {
      assert (a + b)[1..] == a[1..] + b && (a + b)[0] == a[0];
      PathsAppend(a[1..], b);
    }
  }

  lemma WiringAfter(a: App, l: Labels, path: string, done: nat)
    ensures Services(HandlersAfter(a, l, path, done)) ==
            Services(a.handlers) + if !a.mwInstalled && MIDDLEWARE_ADDED <= done then [l.service] else []
    ensures Paths(HandlersAfter(a, l, path, done)) ==
            Paths(a.handlers) + if !a.routeInstalled && ROUTE_ADDED <= done then [path] else []
  {
    var mw := if !a.mwInstalled && MIDDLEWARE_ADDED <= done then [Middleware(l.service)] else [];
    var route := if !a.routeInstalled && ROUTE_ADDED <= done then [Route(path)] else [];
    ServicesAppend(a.handlers + mw, route);
    ServicesAppend(a.handlers, mw);
    PathsAppend(a.handlers + mw, route);
    PathsAppend(a.handlers, mw);
    if mw != [] { assert mw[1..] == []; }
    if route != [] { assert route[1..] == []; }
    assert Services(mw) == if mw == [] then [] else [l.service];
    assert Paths(route) == if route == [] then [] else [path];
    assert Services(route) == [] && Paths(mw) == [];
    assert Services(a.handlers + mw) + [] == Services(a.handlers + mw);
    assert Paths(a.handlers) + [] == Paths(a.handlers);
  }

  // ---- What is wired, over every run ----

  function StrayMiddlewareIn(a: App, op: Op): nat {
    if op.Install? && !a.props.installed && StrayMiddleware(a, op.done) then 1 else 0
  }

  function StrayRouteIn(a: App, op: Op): nat {
    if op.Install? && !a.props.installed && StrayRoute(a, op.done) then 1 else 0
  }

  /** How many attempts threw between app.use and its flag. */
  function StrayMiddlewares(w: World, basePath: string, ops: seq<Op>): nat
    decreases |ops|
  {
    if ops == [] then 0
    else StrayMiddlewareIn(w.app, ops[0]) + StrayMiddlewares(Next(w, basePath, ops[0]), basePath, ops[1..])
  }

  /** How many threw between app.get and its flag. */
  function StrayRoutes(w: World, basePath: string, ops: seq<Op>): nat
    decreases |ops|
  {
    if ops == [] then 0
    else StrayRouteIn(w.app, ops[0]) + StrayRoutes(Next(w, basePath, ops[0]), basePath, ops[1..])
  }

  predicate NoStrays(w: World, basePath: string, ops: seq<Op>) {
    StrayMiddlewares(w, basePath, ops) == 0 && StrayRoutes(w, basePath, ops) == 0
  }

  predicate NoDrops(ops: seq<Op>) {
    forall op <- ops :: !op.DropSentinel?
  }

  function Flagged(flag: bool): nat { if flag then 1 else 0 }

  lemma NextCounts(w: World, basePath: string, op: Op)
    ensures var a, a' := w.app, Next(w, basePath, op).app;
            && |Services(a'.handlers)| + Flagged(a.mwInstalled)
               == |Services(a.handlers)| + StrayMiddlewareIn(a, op) + Flagged(a'.mwInstalled)
            && |Paths(a'.handlers)| + Flagged(a.routeInstalled)
               == |Paths(a.handlers)| + StrayRouteIn(a, op) + Flagged(a'.routeInstalled)
  {
    if op.Install? && !w.app.props.installed {
      WiringAfter(w.app, op.labels, op.path, op.done);
    }
  }

  /** Over any run of attempts, requests and dropped sentinels: besides one
      middleware and one route once flagged, an app gains exactly one for each
      attempt that threw between a registration and its flag. */
  lemma {:induction false} StraysCounted(w: World, basePath: string, ops: seq<Op>)
    ensures var a, a' := w.app, Run(w, basePath, ops).app;
            && |Services(a'.handlers)| + Flagged(a.mwInstalled)
               == |Services(a.handlers)| + StrayMiddlewares(w, basePath, ops) + Flagged(a'.mwInstalled)
            && |Paths(a'.handlers)| + Flagged(a.routeInstalled)
               == |Paths(a.handlers)| + StrayRoutes(w, basePath, ops) + Flagged(a'.routeInstalled)
    decreases |ops|
  {
    if ops != [] {
      NextCounts(w, basePath, ops[0]);
      StraysCounted(Next(w, basePath, ops[0]), basePath, ops[1..]);
    }
  }

  lemma NextKeepsWiring(w: World, basePath: string, op: Op)
    requires WiredAtMostOnce(w.app) && StrayMiddlewareIn(w.app, op) == 0 && StrayRouteIn(w.app, op) == 0
    ensures WiredAtMostOnce(Next(w, basePath, op).app)
  {
    NextCounts(w, basePath, op);
  }

  lemma {:induction false} WiredAtMostOnceWithoutStrays(w: World, basePath: string, ops: seq<Op>)
    requires WiredAtMostOnce(w.app) && NoStrays(w, basePath, ops)
    ensures WiredAtMostOnce(Run(w, basePath, ops).app)
    decreases |ops|
  {
    if ops != [] {
      NextKeepsWiring(w, basePath, ops[0]);
      WiredAtMostOnceWithoutStrays(Next(w, basePath, ops[0]), basePath, ops[1..]);
    }
  }

  /** Over any run of attempts, requests and dropped sentinels, an app ends up
      wired at most once exactly when no attempt threw between a registration and
      its flag, which takes a flag that cannot be assigned. */
  lemma WiredAtMostOnceExactly(w: World, basePath: string, ops: seq<Op>)
    requires WiredAtMostOnce(w.app)
    ensures WiredAtMostOnce(Run(w, basePath, ops).app) <==> NoStrays(w, basePath, ops)
  {
    StraysCounted(w, basePath, ops);
    if NoStrays(w, basePath, ops) { WiredAtMostOnceWithoutStrays(w, basePath, ops); }
  }

  lemma NextKeepsOrderly(w: World, basePath: string, op: Op)
    requires Orderly(w.app) && !op.DropSentinel?
    requires StrayMiddlewareIn(w.app, op) == 0 && StrayRouteIn(w.app, op) == 0
    ensures Orderly(Next(w, basePath, op).app)
  {
    NextKeepsWiring(w, basePath, op);
  }

  /** The steps that break the invariant: dropping the sentinel of an installed
      app, and attempts that throw between a registration and its flag or between
      the last flag and the sentinel. */
  predicate Breaks(a: App, op: Op) {
    match op
    case Install(_, _, done) =>
      !a.props.installed && (StrayMiddleware(a, done) || StrayRoute(a, done) || done == ROUTE_FLAGGED)
    case DropSentinel => a.props.installed
    case _ => false
  }

  lemma InvStepExactly(w: World, basePath: string, op: Op)
    requires Inv(w.app, basePath)
    ensures Inv(Next(w, basePath, op).app, basePath) <==> !Breaks(w.app, op)
  {
    NextCounts(w, basePath, op);
    if op.Install? && !w.app.props.installed { WiringAfter(w.app, op.labels, op.path, op.done); }
  }

  predicate NothingBreaks(w: World, basePath: string, ops: seq<Op>)
    decreases |ops|
  {
    ops == [] || (!Breaks(w.app, ops[0]) && NothingBreaks(Next(w, basePath, ops[0]), basePath, ops[1..]))
  }

  /** Safety over whole runs of attempts and requests in any order. */
  lemma {:induction false} InvAlways(w: World, basePath: string, ops: seq<Op>)
    requires Inv(w.app, basePath) && NothingBreaks(w, basePath, ops)
    ensures Inv(Run(w, basePath, ops).app, basePath)
    decreases |ops|
  {
    if ops != [] {
      InvStepExactly(w, basePath, ops[0]);
      InvAlways(Next(w, basePath, ops[0]), basePath, ops[1..]);
    }
  }

  /** With a route left wired on an app that is not installed, by a dropped
      sentinel or an attempt that threw at it, the next attempt restores the
      invariant exactly when it succeeds with the absolute path the route was
      wired for. */
  lemma RearmedExactly(a: App, basePath: string, l: Labels, path: string, done: nat)
    requires WiredAtMostOnce(a) && a.routeInstalled && !a.props.installed
    ensures Inv(AppAfter(a, basePath, l, path, done), basePath) <==>
            Succeeds(done) && AbsolutePath(basePath, path) == AbsolutePath(basePath, Paths(a.handlers)[0])
  {
    WiringAfter(a, l, path, done);
  }

  // ---- Counting over every run ----

  /** What an attempt asked for. */
  datatype Asked = Asked(service: string, version: string, path: string)

  /** What decides who records a request, over any run: whether the sentinel is
      set; what the last attempt that was not a no-op asked for, if it succeeded;
      the services and paths of the attempts that wired something, successful or
      not, and which wiring is flagged; and the closures each request in flight
      has met. */
  datatype Reference = Reference(
    armed: bool,
    last: Option<Asked>,
    wired: seq<string>,
    routes: seq<string>,
    flags: (bool, bool),
    open: map<nat, seq<string>>,
    log: seq<Sample>)

  function RefAttempt(r: Reference, l: Labels, path: string, done: nat): Reference {
    r.(armed := SENTINEL_SET <= done,
       last := if SENTINEL_SET <= done then Some(Asked(l.service, l.version, path)) else None,
       wired := if !r.flags.0 && MIDDLEWARE_ADDED <= done then r.wired + [l.service] else r.wired,
       routes := if !r.flags.1 && ROUTE_ADDED <= done then r.routes + [path] else r.routes,
       flags := (r.flags.0 || MIDDLEWARE_FLAGGED <= done, r.flags.1 || ROUTE_FLAGGED <= done))
  }

  /** The service a closure records a request under. */
  function RecordedAs(r: Reference, closure: string): string {
    if r.last.Some? then r.last.value.service else closure
  }

  function RefNext(r: Reference, basePath: string, op: Op): Reference {
    match op
    case Install(l, path, done) => if r.armed then r else RefAttempt(r, l, path, done)
    case Enter(id, reqPath) =>
      if id in r.open then r
      else
        var counts := r.armed && r.last.Some? && reqPath != AbsolutePath(basePath, r.last.value.path);
        r.(open := r.open[id := if counts then r.wired else []])
    case Exit(id, res) =>
      if id !in r.open then r
      else
        var met := r.open[id];
        r.(open := r.open - {id},
           log := r.log + seq(|met|, i requires 0 <= i < |met| => SampleOf(RecordedAs(r, met[i]), res)))
    case DropSentinel => r.(armed := false)
  }

  function RefRun(r: Reference, basePath: string, ops: seq<Op>): Reference
    decreases |ops|
  {
    if ops == [] then r else RefRun(RefNext(r, basePath, ops[0]), basePath, ops[1..])
  }

  const UNWIRED := Reference(false, None, [], [], (false, false), map[], [])

  /** What an app says of itself: what it was last installed with, and nothing
      after a failure. */
  ghost predicate Advertises(props: Props, armed: bool, last: Option<Asked>, basePath: string) {
    match last
    case None => !armed && props == Props(None, None, None, None, false)
    case Some(i) =>
      props == Props(Some({i.path, "/health", "/ready", "/healthz"}), Some(i.service), Some(i.version),
                     Some(AbsolutePath(basePath, i.path)), armed)
  }

  ghost predicate Refines(a: App, r: Reference, basePath: string) {
    && Advertises(a.props, r.armed, r.last, basePath)
    && Services(a.handlers) == r.wired && Paths(a.handlers) == r.routes
    && r.flags == (a.mwInstalled, a.routeInstalled)
    && a.pending == r.open
    && a.recorded == r.log
  }

  lemma NextRefines(w: World, r: Reference, basePath: string, op: Op)
    requires Refines(w.app, r, basePath)
    ensures Refines(Next(w, basePath, op).app, RefNext(r, basePath, op), basePath)
  {
    var a := w.app;
    match op
    case Install(l, path, done) =>
      if !a.props.installed {
        WiringAfter(a, l, path, done);
        assert r.wired + [] == r.wired && r.routes + [] == r.routes;
      }
    case Enter(_, _) =>
    case Exit(id, res) =>
      if id in a.pending {
        var met := r.open[id];
        assert Samples(a.props, a.pending[id], res)
            == seq(|met|, i requires 0 <= i < |met| => SampleOf(RecordedAs(r, met[i]), res));
      }
    case DropSentinel =>
  }

  /** Over every run, dropped sentinels and failures at any step included: a
      request that came in while the sentinel was set, not for the live path, is
      recorded once for each middleware wired by then, and any other never; and
      when it is, it is recorded under the service of the last attempt that was
      not a no-op exactly when that attempt succeeded, and under the closure of
      the attempt that wired the middleware when it failed. The app advertises
      what the last such attempt asked for, or nothing. */
  lemma {:induction false} RecordsRefine(w: World, r: Reference, basePath: string, ops: seq<Op>)
    requires Refines(w.app, r, basePath)
    ensures Refines(Run(w, basePath, ops).app, RefRun(r, basePath, ops), basePath)
    decreases |ops|
  {
    if ops != [] {
      NextRefines(w, r, basePath, ops[0]);
      RecordsRefine(Next(w, basePath, ops[0]), RefNext(r, basePath, ops[0]), basePath, ops[1..]);
    }
  }

  /** In particular from a fresh app; each middleware was wired by exactly one
      attempt, all but one of which threw at its flag. */
  lemma RecordsRefineFresh(shared: Shared, basePath: string, ops: seq<Op>)
    ensures var w, r := World(shared, FRESH), RefRun(UNWIRED, basePath, ops);
            && Run(w, basePath, ops).app.recorded == r.log
            && Advertises(Run(w, basePath, ops).app.props, r.armed, r.last, basePath)
            && |r.wired| == StrayMiddlewares(w, basePath, ops) + Flagged(r.flags.0)
  {
    RecordsRefine(World(shared, FRESH), UNWIRED, basePath, ops);
    StraysCounted(World(shared, FRESH), basePath, ops);
  }

  // ---- With the sentinel left alone: counting against an ideal without failures ----

  /** The service and absolute path of the one attempt that succeeded. */
  datatype Live = Live(service: string, path: string)

  /** open: the requests in flight, and whether they are to be recorded. */
  datatype Ideal = Ideal(live: Option<Live>, open: map<nat, bool>, log: seq<Sample>)

  function IdealNext(r: Ideal, basePath: string, op: Op): Ideal {
    match op
    case Install(l, path, done) =>
      if r.live.None? && Succeeds(done) then r.(live := Some(Live(l.service, AbsolutePath(basePath, path)))) else r
    case Enter(id, reqPath) =>
      if id in r.open then r else r.(open := r.open[id := r.live.Some? && reqPath != r.live.value.path])
    case Exit(id, res) =>
      if id !in r.open then r
      else if r.live.Some? && r.open[id]
      then r.(open := r.open - {id}, log := r.log + [SampleOf(r.live.value.service, res)])
      else r.(open := r.open - {id})
    case DropSentinel => r
  }

  function IdealRun(r: Ideal, basePath: string, ops: seq<Op>): Ideal
    decreases |ops|
  {
    if ops == [] then r else IdealRun(IdealNext(r, basePath, ops[0]), basePath, ops[1..])
  }

  ghost predicate RefinesIdeal(a: App, r: Ideal) {
    && (r.live.Some? <==> a.props.installed)
    && (r.live.Some? ==> a.props.service == Some(r.live.value.service) && a.props.path == Some(r.live.value.path))
    && r.open.Keys == a.pending.Keys
    && (forall id <- r.open :: r.open[id] <==> a.pending[id] != [])
    && a.recorded == r.log
  }

  lemma NextRefinesIdeal(w: World, r: Ideal, basePath: string, op: Op)
    requires Orderly(w.app) && RefinesIdeal(w.app, r) && !op.DropSentinel?
    ensures RefinesIdeal(Next(w, basePath, op).app, IdealNext(r, basePath, op))
  {
    var a := w.app;
    match op
    case Install(_, _, _) =>
    case Enter(id, reqPath) =>
      if Gate(a.props, reqPath) { assert |Services(a.handlers)| == 1; }
    case Exit(id, res) =>
      if id in a.pending {
        var samples := Samples(a.props, a.pending[id], res);
        if a.pending[id] == [] {
          assert a.recorded + samples == a.recorded;
        } else {
          assert samples == [SampleOf(r.live.value.service, res)];
        }
      }
  }

  lemma {:induction false} RecordsIdealFrom(w: World, r: Ideal, basePath: string, ops: seq<Op>)
    requires Orderly(w.app) && RefinesIdeal(w.app, r) && NoDrops(ops) && NoStrays(w, basePath, ops)
    ensures Run(w, basePath, ops).app.recorded == IdealRun(r, basePath, ops).log
    decreases |ops|
  {
    if ops != [] {
      NextKeepsOrderly(w, basePath, ops[0]);
      NextRefinesIdeal(w, r, basePath, ops[0]);
      RecordsIdealFrom(Next(w, basePath, ops[0]), IdealNext(r, basePath, ops[0]), basePath, ops[1..]);
    }
  }

  /** Where no sentinel is dropped and no attempt throws between a registration
      and its flag, each request that is not for the metrics path is recorded
      exactly once if it came in while installed and never otherwise, always
      under the succeeding attempt's service: what is recorded is what the ideal
      logs, which does not even look at failed attempts or at closures. */
  lemma RecordsIdeal(shared: Shared, basePath: string, ops: seq<Op>)
    requires NoDrops(ops) && NoStrays(World(shared, FRESH), basePath, ops)
    ensures Run(World(shared, FRESH), basePath, ops).app.recorded
         == IdealRun(Ideal(None, map[], []), basePath, ops).log
  {
    RecordsIdealFrom(World(shared, FRESH), Ideal(None, map[], []), basePath, ops);
  }

  /** The first attempt fails after app.use, the second one succeeds. */
  function SecondTry(shared: Shared, basePath: string, first: Labels, second: Labels, path: string): World {
    Next(Next(World(shared, FRESH), basePath, Install(first, path, MIDDLEWARE_FLAGGED)),
         basePath, Install(second, path, SENTINEL_SET))
  }

  lemma SecondTryState(shared: Shared, basePath: string, first: Labels, second: Labels, path: string)
    ensures var a := SecondTry(shared, basePath, first, second, path).app;
            && a.props.installed && a.mwInstalled && a.routeInstalled && a.recorded == []
            && a.props.path == Some(AbsolutePath(basePath, path)) && a.props.service == Some(second.service)
            && Services(a.handlers) == [first.service]
  {
    var a1 := AppAfter(FRESH, basePath, first, path, MIDDLEWARE_FLAGGED);
    assert a1.handlers == [Middleware(first.service)];
    var a2 := AppAfter(a1, basePath, second, path, SENTINEL_SET);
    assert a2.handlers == [Middleware(first.service), Route(path)];
    var mw, route := [Middleware(first.service)], [Route(path)];
    assert a2.handlers == mw + route;
    ServicesAppend(mw, route);
    assert mw[1..] == [] && route[1..] == [];
    assert Services(mw) == [first.service] && Services(route) == [];
  }

  /** Where a closure does leak: a request that is in flight while the sentinel is
      dropped and a third attempt made is never recorded under the service it
      came in for, but under the third attempt's if that succeeds and, if it
      fails, under that of the failed first attempt, whose closure is the wired
      one. */
  lemma LeakedClosureExactly(shared: Shared, basePath: string, first: Labels, second: Labels, third: Labels,
                             path: string, id: nat, reqPath: string, res: Response, done: nat)
    requires reqPath != AbsolutePath(basePath, path)
    ensures var w := SecondTry(shared, basePath, first, second, path);
            var run := [Enter(id, reqPath), DropSentinel, Install(third, path, done), Exit(id, res)];
            Run(w, basePath, run).app.recorded ==
            [SampleOf(if Succeeds(done) then third.service else first.service, res)]
  {
    SecondTryState(shared, basePath, first, second, path);
    var w := SecondTry(shared, basePath, first, second, path);
    var last := [Exit(id, res)];
    var tail := [Install(third, path, done), Exit(id, res)];
    var more := [DropSentinel, Install(third, path, done), Exit(id, res)];
    var run := [Enter(id, reqPath), DropSentinel, Install(third, path, done), Exit(id, res)];
    assert run[1..] == more && more[1..] == tail && tail[1..] == last && last[1..] == [];
    var w1 := Next(w, basePath, Enter(id, reqPath));
    var w2 := Next(w1, basePath, DropSentinel);
    var w3 := Next(w2, basePath, Install(third, path, done));
    var w4 := Next(w3, basePath, Exit(id, res));
    assert w3.app.pending[id] == [first.service];
    assert w3.app.recorded == [];
    assert Run(w, basePath, run) == Run(w1, basePath, more) == Run(w2, basePath, tail) == Run(w3, basePath, last);
    assert Run(w4, basePath, []) == w4;
    assert [first.service][0] == first.service;
  }
}
