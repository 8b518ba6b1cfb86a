/** Any number of Flask and FastAPI apps that share one process: what failed
    installs leave behind over whole runs. */
module PyInstalls {
  import opened Wrappers
  import opened Text
  import opened BuildInfo
  import opened PyProcess
  import PC = PyCollector
  import Flask
  import FastApi

  /** nextId is the identity the next collector object will have. */
  datatype World = World(shared: Shared, nextId: nat, flask: map<nat, Flask.App>, fast: map<nat, FastApi.App>)

  const NEW_FLASK := Flask.App(None, None, None, [], [])
  const NEW_FAST := FastApi.App(FastApi.CLEARED, [], [])

  function FlaskIn(apps: map<nat, Flask.App>, i: nat): Flask.App {
    if i in apps then apps[i] else NEW_FLASK
  }

  function FastIn(apps: map<nat, FastApi.App>, i: nat): FastApi.App {
    if i in apps then apps[i] else NEW_FAST
  }

  /** Attempts, and what consumers do in between: hooks, receivers, rules,
      middlewares and routes of their own, and dropped sentinels. */
  datatype Op =
    | InstallFlask(app: nat, labels: Labels, path: string, done: nat)
    | InstallFast(app: nat, labels: Labels, path: string, done: nat)
    | AddHooks(app: nat, id: nat)
    | Connect(app: nat, id: nat)
    | AddRule(app: nat, id: nat)
    | DropFlask(app: nat)
    | AddMiddleware(app: nat, id: nat)
    | AddRoute(app: nat, id: nat)
    | DropFast(app: nat)

  predicate Fails(op: Op) {
    match op
    case InstallFlask(_, _, _, done) => done < Flask.VIEW_ADDED
    case InstallFast(_, _, _, done) => done < FastApi.ROUTE_EXPOSED
    case _ => false
  }

  /** What a consumer, or an attempt that gets past the sentinel, does to a Flask app. */
  function FlaskAfter(a: Flask.App, op: Op): Flask.App {
    match op
    case InstallFlask(_, l, path, done) => Flask.AppAfter(a, l, path, done)
    case AddHooks(_, id) =>
      a.(before := Some(Flask.Hooks(a.before) + [Flask.Theirs(id)]),
         after := Some(Flask.Hooks(a.after) + [Flask.Theirs(id)]))
    case Connect(_, id) => a.(receivers := a.receivers + [Flask.Theirs(id)])
    case AddRule(_, id) => a.(rules := a.rules + [Flask.Theirs(id)])
    case DropFlask(_) => a.(sentinel := None)
    case _ => a
  }

  function FastAfter(a: FastApi.App, op: Op): FastApi.App {
    match op
    case InstallFast(_, l, path, done) => FastApi.AppAfter(a, l, path, done)
    case AddMiddleware(_, id) => a.(middleware := [FastApi.Theirs(id)] + a.middleware)
    case AddRoute(_, id) => a.(routes := a.routes + [FastApi.Theirs(id)])
    case DropFast(_) => a.(state := a.state.(installed := false))
    case _ => a
  }

  predicate OnFlask(op: Op) {
    op.InstallFlask? || op.AddHooks? || op.Connect? || op.AddRule? || op.DropFlask?
  }

  /** An attempt on an app that is installed already. */
  predicate NoOp(w: World, op: Op) {
    || (op.InstallFlask? && FlaskIn(w.flask, op.app).sentinel.Some?)
    || (op.InstallFast? && FastIn(w.fast, op.app).state.installed)
  }

  function Next(w: World, op: Op): World {
    if NoOp(w, op) then w
    else
      var w' := if op.InstallFlask? || op.InstallFast?
                then w.(shared := SharedAfter(w.shared, w.nextId, op.labels, Fails(op)),
                        nextId := NextAfter(w.shared, w.nextId, op.labels, op.done))
                else w;
      if OnFlask(op) then w'.(flask := w'.flask[op.app := FlaskAfter(FlaskIn(w.flask, op.app), op)])
      else w'.(fast := w'.fast[op.app := FastAfter(FastIn(w.fast, op.app), op)])
  }

  function Run(w: World, ops: seq<Op>): World
    decreases |ops|
  {
    if ops == [] then w else Run(Next(w, ops[0]), ops[1..])
  }

  function WithoutFailed(ops: seq<Op>): seq<Op> {
    if ops == [] then []
    else (if Fails(ops[0]) then [] else [ops[0]]) + WithoutFailed(ops[1..])
  }

  // ---- Failed installs are erasable ----

  function ServiceOf(live: Option<PC.Collector>): Option<string> {
    match live
    case None => None
    case Some(c) => Some(c.service)
  }

  /** The same process but for the identity of the collector object. */
  ghost predicate SameProcess(s: Shared, t: Shared) {
    s.service == t.service && ServiceOf(s.live) == ServiceOf(t.live) && s.ledger == t.ledger
  }

  /** The same app but for empty hook lists. */
  predicate SameFlask(a: Flask.App, b: Flask.App) {
    && Flask.Hooks(a.before) == Flask.Hooks(b.before) && Flask.Hooks(a.after) == Flask.Hooks(b.after)
    && a.receivers == b.receivers && a.rules == b.rules && a.sentinel == b.sentinel
  }

  /** The same app but for its middleware and for attributes left on an app that
      is not installed. */
  predicate SameFast(a: FastApi.App, b: FastApi.App) {
    && a.routes == b.routes && a.state.installed == b.state.installed
    && (a.state.installed ==> a.state == b.state)
  }

  predicate NoneOfOurs(a: Flask.App) {
    forall p <- a.receivers :: p.Theirs?
  }

  /** Between calls the exception signal holds no receiver of ours. */
  ghost predicate Good(w: World) {
    GoodShared(w.shared) && forall i: nat :: NoneOfOurs(FlaskIn(w.flask, i))
  }

  ghost predicate Same(v: World, w: World) {
    SameProcess(v.shared, w.shared) && SameFlasks(v.flask, w.flask) && SameFasts(v.fast, w.fast)
  }

  /** Nothing else refers to our receiver, so no call that has returned, however
      it went, leaves one connected. */
  lemma NextKeepsGood(w: World, op: Op)
    requires Good(w)
    ensures Good(Next(w, op))
  {
    if op.InstallFlask? || op.InstallFast? { CommitKeepsGood(w.shared, w.nextId, op.labels); }
    var w' := Next(w, op);
    forall i: nat ensures NoneOfOurs(FlaskIn(w'.flask, i)) {
      assert NoneOfOurs(FlaskIn(w.flask, i));
      if OnFlask(op) && op.app == i { Flask.ForeignExactly(FlaskIn(w.flask, i).receivers); }
    }
  }

  lemma FlaskFailure(a: Flask.App, op: Op)
    requires op.InstallFlask? && Fails(op) && NoneOfOurs(a)
    ensures SameFlask(FlaskAfter(a, op), a)
  {
    Flask.FailureRestoresApp(a, op.labels, op.path, op.done);
  }

  lemma FastFailure(a: FastApi.App, op: Op)
    requires op.InstallFast? && Fails(op) && !a.state.installed
    ensures SameFast(FastAfter(a, op), a)
  {
  }

  ghost predicate SameFlasks(m: map<nat, Flask.App>, n: map<nat, Flask.App>) {
    forall i: nat :: SameFlask(FlaskIn(m, i), FlaskIn(n, i))
  }

  ghost predicate SameFasts(m: map<nat, FastApi.App>, n: map<nat, FastApi.App>) {
    forall i: nat :: SameFast(FastIn(m, i), FastIn(n, i))
  }

  lemma UpdateFlask(m: map<nat, Flask.App>, n: map<nat, Flask.App>, i: nat, x: Flask.App, y: Flask.App)
    requires SameFlasks(m, n) && SameFlask(x, y)
    ensures SameFlasks(m[i := x], n[i := y])
    ensures SameFlask(x, FlaskIn(n, i)) ==> SameFlasks(m[i := x], n)
  {
    var m', n' := m[i := x], n[i := y];
    forall k: nat
      ensures SameFlask(FlaskIn(m', k), FlaskIn(n', k))
      ensures SameFlask(x, FlaskIn(n, i)) ==> SameFlask(FlaskIn(m', k), FlaskIn(n, k))
    {
      assert SameFlask(FlaskIn(m, k), FlaskIn(n, k));
    }
  }

  lemma UpdateFast(m: map<nat, FastApi.App>, n: map<nat, FastApi.App>, i: nat, x: FastApi.App, y: FastApi.App)
    requires SameFasts(m, n) && SameFast(x, y)
    ensures SameFasts(m[i := x], n[i := y])
    ensures SameFast(x, FastIn(n, i)) ==> SameFasts(m[i := x], n)
  {
    var m', n' := m[i := x], n[i := y];
    forall k: nat
      ensures SameFast(FastIn(m', k), FastIn(n', k))
      ensures SameFast(x, FastIn(n, i)) ==> SameFast(FastIn(m', k), FastIn(n, k))
    {
      assert SameFast(FastIn(m, k), FastIn(n, k));
    }
  }

  lemma FailureIsSame(w: World, op: Op)
    requires Good(w) && Fails(op)
    ensures Same(Next(w, op), w)
  {
    if !NoOp(w, op) {
      if op.InstallFlask? {
        var a := FlaskIn(w.flask, op.app);
        assert NoneOfOurs(a);
        FlaskFailure(a, op);
        UpdateFlask(w.flask, w.flask, op.app, FlaskAfter(a, op), a);
      } else {
        var a := FastIn(w.fast, op.app);
        FastFailure(a, op);
        UpdateFast(w.fast, w.fast, op.app, FastAfter(a, op), a);
      }
    }
  }

  lemma CommitRespectsSame(s: Shared, t: Shared, m: nat, n: nat, l: Labels)
    requires GoodShared(s) && GoodShared(t) && SameProcess(s, t)
    ensures SameProcess(Committed(s, m, l), Committed(t, n, l))
  {
  }

  lemma FlaskRespectsSame(a: Flask.App, b: Flask.App, op: Op)
    requires SameFlask(a, b) && !Fails(op)
    ensures SameFlask(FlaskAfter(a, op), FlaskAfter(b, op))
  {
  }

  lemma FastRespectsSame(a: FastApi.App, b: FastApi.App, op: Op)
    requires SameFast(a, b) && !Fails(op)
    ensures SameFast(FastAfter(a, op), FastAfter(b, op))
  {
  }

  lemma NextRespectsSame(v: World, w: World, op: Op)
    requires Good(v) && Good(w) && Same(v, w) && !Fails(op)
    ensures Same(Next(v, op), Next(w, op))
  {
    var a, b := FlaskIn(v.flask, op.app), FlaskIn(w.flask, op.app);
    var c, d := FastIn(v.fast, op.app), FastIn(w.fast, op.app);
    assert SameFlask(a, b) && SameFast(c, d);
    if !NoOp(v, op) {
      if op.InstallFlask? || op.InstallFast? {
        CommitRespectsSame(v.shared, w.shared, v.nextId, w.nextId, op.labels);
      }
      if OnFlask(op) {
        FlaskRespectsSame(a, b, op);
        UpdateFlask(v.flask, w.flask, op.app, FlaskAfter(a, op), FlaskAfter(b, op));
      } else {
        FastRespectsSame(c, d, op);
        UpdateFast(v.fast, w.fast, op.app, FastAfter(c, op), FastAfter(d, op));
      }
    }
  }

  lemma SameTrans(u: World, v: World, w: World)
    requires Same(u, v) && Same(v, w)
    ensures Same(u, w)
  {
    forall i: nat
      ensures SameFlask(FlaskIn(u.flask, i), FlaskIn(w.flask, i)) && SameFast(FastIn(u.fast, i), FastIn(w.fast, i))
    {
      assert SameFlask(FlaskIn(u.flask, i), FlaskIn(v.flask, i)) && SameFlask(FlaskIn(v.flask, i), FlaskIn(w.flask, i));
      assert SameFast(FastIn(u.fast, i), FastIn(v.fast, i)) && SameFast(FastIn(v.fast, i), FastIn(w.fast, i));
    }
  }

  lemma {:induction false} ErasableFrom(v: World, w: World, ops: seq<Op>)
    requires Good(v) && Good(w) && Same(v, w)
    ensures Good(Run(v, ops)) && Same(Run(v, ops), Run(w, WithoutFailed(ops)))
    decreases |ops|
  {
    if ops != [] {
      var op, rest := ops[0], ops[1..];
      NextKeepsGood(v, op);
      if Fails(op) {
        FailureIsSame(v, op);
        SameTrans(Next(v, op), v, w);
        assert [] + WithoutFailed(rest) == WithoutFailed(rest);
        ErasableFrom(Next(v, op), w, rest);
      } else {
        NextKeepsGood(w, op);
        NextRespectsSame(v, w, op);
        assert ([op] + WithoutFailed(rest))[1..] == WithoutFailed(rest);
        ErasableFrom(Next(v, op), Next(w, op), rest);
      }
    }
  }

  /** Failed installs are erasable: after any run of attempts on any number of
      Flask and FastAPI apps, with dropped sentinels and whatever consumers add
      in between, service, collector, ledger, hooks, receivers, rules, routes,
      sentinels and the attributes of installed apps are those of the run without
      the failed attempts. Only the middleware lists of FastAPI apps may differ. */
  lemma FailedInstallsErasable(w: World, ops: seq<Op>)
    requires Good(w)
    ensures Good(Run(w, ops)) && Same(Run(w, ops), Run(w, WithoutFailed(ops)))
  {
    ErasableFrom(w, w, ops);
  }

  lemma FailedInstallsErasableFromStart(ops: seq<Op>)
    ensures var start := World(Shared(None, None, {}, Ledger({}, map[])), 0, map[], map[]);
            Same(Run(start, ops), Run(start, WithoutFailed(ops)))
  {
    FailedInstallsErasable(World(Shared(None, None, {}, Ledger({}, map[])), 0, map[], map[]), ops);
  }

  // ---- What the process and its apps report ----

  /** The labels of an attempt that gets past the sentinel and succeeds. */
  function Success(w: World, op: Op): Option<Labels> {
    if (op.InstallFlask? || op.InstallFast?) && !NoOp(w, op) && !Fails(op) then Some(op.labels) else None
  }

  function LastSuccess(w: World, ops: seq<Op>, last: Option<Labels>): Option<Labels>
    decreases |ops|
  {
    if ops == [] then last
    else LastSuccess(Next(w, ops[0]), ops[1..], if Success(w, ops[0]).Some? then Success(w, ops[0]) else last)
  }

  function SucceededIn(w: World, op: Op): set<Labels> {
    if Success(w, op).Some? then {Success(w, op).value} else {}
  }

  function Succeeded(w: World, ops: seq<Op>): set<Labels>
    decreases |ops|
  {
    if ops == [] then {} else SucceededIn(w, ops[0]) + Succeeded(Next(w, ops[0]), ops[1..])
  }

  /** The process reports l's service, or what it reported before. */
  ghost predicate Reports(before: Shared, after: Shared, l: Option<Labels>) {
    match l
    case None => after.service == before.service && after.live == before.live
    case Some(l) =>
      after.service == Some(Trim(l.service, PySpace)) && after.live.Some? && after.live.value.service == l.service
  }

  lemma NextReports(first: Shared, w: World, op: Op, last: Option<Labels>)
    requires Good(w) && Reports(first, w.shared, last)
    ensures Reports(first, Next(w, op).shared, if Success(w, op).Some? then Success(w, op) else last)
    ensures Next(w, op).shared.ledger.samples.Keys == w.shared.ledger.samples.Keys + SucceededIn(w, op)
  {
    if op.InstallFlask? || op.InstallFast? {
      PC.RegisterReports(CollectorsOf(w.shared, w.nextId), op.labels.service);
    }
  }

  lemma {:induction false} ReportsFrom(first: Shared, w: World, ops: seq<Op>, last: Option<Labels>)
    requires Good(w) && Reports(first, w.shared, last)
    ensures Reports(first, Run(w, ops).shared, LastSuccess(w, ops, last))
    ensures Run(w, ops).shared.ledger.samples.Keys == w.shared.ledger.samples.Keys + Succeeded(w, ops)
    decreases |ops|
  {
    if ops != [] {
      NextKeepsGood(w, ops[0]);
      NextReports(first, w, ops[0], last);
      ReportsFrom(first, Next(w, ops[0]), ops[1..], if Success(w, ops[0]).Some? then Success(w, ops[0]) else last);
    }
  }

  /** Over any run, the service global is the stripped service of the last attempt
      to succeed, the live collector reports that service, and the build_info
      samples are those of exactly the attempts that succeeded. */
  lemma ProcessReportsLast(w: World, ops: seq<Op>)
    requires Good(w)
    ensures Reports(w.shared, Run(w, ops).shared, LastSuccess(w, ops, None))
    ensures Run(w, ops).shared.ledger.samples.Keys == w.shared.ledger.samples.Keys + Succeeded(w, ops)
  {
    ReportsFrom(w.shared, w, ops, None);
  }

  /** What a step adds to the hooks of Flask app a. */
  function HookOf(w: World, op: Op, a: nat): seq<Flask.Part> {
    if op.app != a then []
    else if op.AddHooks? then [Flask.Theirs(op.id)]
    else if op.InstallFlask? && Success(w, op).Some? then [Flask.Ours(op.labels.service, op.path)]
    else []
  }

  function HooksOf(w: World, ops: seq<Op>, a: nat): seq<Flask.Part>
    decreases |ops|
  {
    if ops == [] then [] else HookOf(w, ops[0], a) + HooksOf(Next(w, ops[0]), ops[1..], a)
  }

  /** And to its rules. */
  function RuleOf(w: World, op: Op, a: nat): seq<Flask.Part> {
    if op.app != a then []
    else if op.AddRule? then [Flask.Theirs(op.id)]
    else if op.InstallFlask? && Success(w, op).Some? then [Flask.Ours(op.labels.service, op.path)]
    else []
  }

  function RulesOf(w: World, ops: seq<Op>, a: nat): seq<Flask.Part>
    decreases |ops|
  {
    if ops == [] then [] else RuleOf(w, ops[0], a) + RulesOf(Next(w, ops[0]), ops[1..], a)
  }

  /** And its sentinel: what a successful attempt asked for, until it is dropped. */
  function SentinelAfter(sentinel: Option<Flask.Sentinel>, op: Op, a: nat): Option<Flask.Sentinel> {
    if op.app != a then sentinel
    else if op.DropFlask? then None
    else if op.InstallFlask? && sentinel.None? && !Fails(op) then
      Some(Flask.Sentinel(op.labels.service, op.labels.version, {op.path, "/health", "/ready", "/healthz"}))
    else sentinel
  }

  function SentinelAfterAll(sentinel: Option<Flask.Sentinel>, ops: seq<Op>, a: nat): Option<Flask.Sentinel>
    decreases |ops|
  {
    if ops == [] then sentinel else SentinelAfterAll(SentinelAfter(sentinel, ops[0], a), ops[1..], a)
  }

  lemma NextFlask(w: World, op: Op, a: nat)
    ensures var app, app' := FlaskIn(w.flask, a), FlaskIn(Next(w, op).flask, a);
            && Flask.Hooks(app'.before) == Flask.Hooks(app.before) + HookOf(w, op, a)
            && Flask.Hooks(app'.after) == Flask.Hooks(app.after) + HookOf(w, op, a)
            && app'.rules == app.rules + RuleOf(w, op, a)
            && app'.sentinel == SentinelAfter(app.sentinel, op, a)
  {
    var app := FlaskIn(w.flask, a);
    NoneLost(Flask.Hooks(app.before), []);
    NoneLost(Flask.Hooks(app.after), []);
    NoneLost(app.rules, []);
  }

  /** Over any run, the hooks and rules of a Flask app are those it had, and one of
      ours for each attempt that succeeded among the consumer's, in order, each
      for the service and path that attempt asked for; and its sentinel is what
      the last success asked for, unless dropped. */
  lemma {:induction false} FlaskAsAsked(w: World, ops: seq<Op>, a: nat)
    ensures var app, app' := FlaskIn(w.flask, a), FlaskIn(Run(w, ops).flask, a);
            && Flask.Hooks(app'.before) == Flask.Hooks(app.before) + HooksOf(w, ops, a)
            && Flask.Hooks(app'.after) == Flask.Hooks(app.after) + HooksOf(w, ops, a)
            && app'.rules == app.rules + RulesOf(w, ops, a)
            && app'.sentinel == SentinelAfterAll(app.sentinel, ops, a)
    decreases |ops|
  {
    var app := FlaskIn(w.flask, a);
    if ops == [] {
      NoneLost(Flask.Hooks(app.before), []);
      NoneLost(Flask.Hooks(app.after), []);
      NoneLost(app.rules, []);
    } else {
      var w', rest := Next(w, ops[0]), ops[1..];
      NextFlask(w, ops[0], a);
      FlaskAsAsked(w', rest, a);
      Regroup(Flask.Hooks(app.before), HookOf(w, ops[0], a), HooksOf(w', rest, a));
      Regroup(Flask.Hooks(app.after), HookOf(w, ops[0], a), HooksOf(w', rest, a));
      Regroup(app.rules, RuleOf(w, ops[0], a), RulesOf(w', rest, a));
    }
  }

  /** What a step adds to the routes of FastAPI app a. */
  function RouteOf(w: World, op: Op, a: nat): seq<FastApi.Part> {
    if op.app != a then []
    else if op.AddRoute? then [FastApi.Theirs(op.id)]
    else if op.InstallFast? && Success(w, op).Some? then [FastApi.Ours(op.labels.service, op.path)]
    else []
  }

  function RoutesOf(w: World, ops: seq<Op>, a: nat): seq<FastApi.Part>
    decreases |ops|
  {
    if ops == [] then [] else RouteOf(w, ops[0], a) + RoutesOf(Next(w, ops[0]), ops[1..], a)
  }

  /** And its state: what the last attempt that was not a no-op asked for, if it
      succeeded, and nothing if it failed. */
  function StateAfter(state: FastApi.AppState, op: Op, a: nat): FastApi.AppState {
    if op.app != a then state
    else if op.DropFast? then state.(installed := false)
    else if op.InstallFast? && !state.installed then
      if Fails(op) then FastApi.AppState(None, None, None, false)
      else FastApi.AppState(Some(op.labels.service), Some(op.labels.version),
                            Some({op.path, "/health", "/ready", "/healthz"}), true)
    else state
  }

  function StateAfterAll(state: FastApi.AppState, ops: seq<Op>, a: nat): FastApi.AppState
    decreases |ops|
  {
    if ops == [] then state else StateAfterAll(StateAfter(state, ops[0], a), ops[1..], a)
  }

  lemma NextFast(w: World, op: Op, a: nat)
    ensures var app, app' := FastIn(w.fast, a), FastIn(Next(w, op).fast, a);
            app'.routes == app.routes + RouteOf(w, op, a) && app'.state == StateAfter(app.state, op, a)
  {
    NoneLost(FastIn(w.fast, a).routes, []);
  }

  /** Likewise for the routes and the state of a FastAPI app. */
  lemma {:induction false} FastAsAsked(w: World, ops: seq<Op>, a: nat)
    ensures var app, app' := FastIn(w.fast, a), FastIn(Run(w, ops).fast, a);
            app'.routes == app.routes + RoutesOf(w, ops, a) && app'.state == StateAfterAll(app.state, ops, a)
    decreases |ops|
  {
    var app := FastIn(w.fast, a);
    if ops == [] {
      NoneLost(app.routes, []);
    } else {
      NextFast(w, ops[0], a);
      FastAsAsked(Next(w, ops[0]), ops[1..], a);
      Regroup(app.routes, RouteOf(w, ops[0], a), RoutesOf(Next(w, ops[0]), ops[1..], a));
    }
  }

  // ---- The exception receivers ----

  /** The receivers consumers connect to app a, in order. */
  function Connected(ops: seq<Op>, a: nat): seq<Flask.Part> {
    if ops == [] then []
    else (if ops[0].Connect? && ops[0].app == a then [Flask.Theirs(ops[0].id)] else []) + Connected(ops[1..], a)
  }

  /** No install leaves a receiver connected, successful or not: those of an app
      are the ones it had and the consumer's. So the handler meant to count
      uncaught exceptions never hears of one once its install has returned. */
  lemma {:induction false} ReceiversAreTheirs(w: World, ops: seq<Op>, a: nat)
    requires Good(w)
    ensures FlaskIn(Run(w, ops).flask, a).receivers == FlaskIn(w.flask, a).receivers + Connected(ops, a)
    decreases |ops|
  {
    var receivers := FlaskIn(w.flask, a).receivers;
    if ops == [] {
      assert receivers + [] == receivers;
    } else {
      var op := ops[0];
      var first := if op.Connect? && op.app == a then [Flask.Theirs(op.id)] else [];
      assert NoneOfOurs(FlaskIn(w.flask, a));
      NextReceivers(w, op, a);
      NextKeepsGood(w, op);
      ReceiversAreTheirs(Next(w, op), ops[1..], a);
      Regroup(receivers, first, Connected(ops[1..], a));
    }
  }

  lemma ReceiversAfter(app: Flask.App, op: Op)
    requires NoneOfOurs(app)
    ensures FlaskAfter(app, op).receivers == app.receivers + if op.Connect? then [Flask.Theirs(op.id)] else []
  {
    NoneLost(app.receivers, []);
    Flask.ForeignExactly(app.receivers);
  }

  lemma NextReceivers(w: World, op: Op, a: nat)
    requires NoneOfOurs(FlaskIn(w.flask, a))
    ensures FlaskIn(Next(w, op).flask, a).receivers ==
            FlaskIn(w.flask, a).receivers + if op.Connect? && op.app == a then [Flask.Theirs(op.id)] else []
  {
    NoneLost(FlaskIn(w.flask, a).receivers, []);
    if !NoOp(w, op) && OnFlask(op) && op.app == a {
      ReceiversAfter(FlaskIn(w.flask, a), op);
    }
  }

  // ---- The middleware lists ----

  function Middleware(w: World, a: nat): seq<FastApi.Part> {
    FastIn(w.fast, a).middleware
  }

  /** The consumer's middlewares, outermost first. */
  function Theirs(middleware: seq<FastApi.Part>): seq<nat> {
    if middleware == [] then []
    else (if middleware[0].Theirs? then [middleware[0].id] else []) + Theirs(middleware[1..])
  }

  /** A failed attempt that cuts a middleware other than its own off app a. */
  predicate Cuts(w: World, op: Op, a: nat) {
    && op.InstallFast? && op.app == a && Fails(op) && !NoOp(w, op)
    && FastApi.MIDDLEWARE_ADDED <= op.done && Middleware(w, a) != []
  }

  function LostIn(w: World, op: Op, a: nat): seq<nat> {
    if Cuts(w, op, a) then
      var last := Middleware(w, a)[|Middleware(w, a)| - 1];
      if last.Theirs? then [last.id] else []
    else []
  }

  /** The consumer's middlewares that failed attempts cut off app a, in list order. */
  function Lost(w: World, ops: seq<Op>, a: nat): seq<nat>
    decreases |ops|
  {
    if ops == [] then [] else Lost(Next(w, ops[0]), ops[1..], a) + LostIn(w, ops[0], a)
  }

  lemma {:induction false} TheirsAppend(a: seq<FastApi.Part>, b: seq<FastApi.Part>)
    ensures Theirs(a + b) == Theirs(a) + Theirs(b)
  {
    if a == [] {
      assert a + b == b;
    } else {
      assert (a + b)[1..] == a[1..] + b;
      TheirsAppend(a[1..], b);
    }
  }

  lemma TheirsOne(p: FastApi.Part)
    ensures Theirs([p]) == if p.Theirs? then [p.id] else []
  {
    assert [p][1..] == [];
  }

  lemma NoneLost<T>(a: seq<T>, b: seq<T>)
    ensures a + [] == a && [] + a == a
    ensures a == a + b <==> b == []
  {
    assert |a + b| == |a| + |b|;
  }

  lemma Regroup<T>(a: seq<T>, b: seq<T>, c: seq<T>)
    ensures a + (b + c) == a + b + c
  {
  }

  /** Cutting from the end takes the last one off, not the one put in front. */
  lemma CutLoses(middleware: seq<FastApi.Part>, ours: FastApi.Part, done: nat)
    requires ours.Ours? && middleware != [] && FastApi.MIDDLEWARE_ADDED <= done
    ensures var last := middleware[|middleware| - 1];
            Theirs(middleware) ==
            Theirs(FastApi.CutBack(middleware, ours, done)) + if last.Theirs? then [last.id] else []
  {
    var n := |middleware| - 1;
    var kept, last := middleware[..n], middleware[n];
    assert ([ours] + middleware)[..n + 1] == [ours] + kept;
    assert kept + [last] == middleware;
    TheirsAppend([ours], kept);
    TheirsAppend(kept, [last]);
    TheirsOne(ours);
    TheirsOne(last);
    NoneLost(Theirs(kept), []);
  }

  lemma FailureWithoutCut(w: World, op: Op, a: nat)
    requires Fails(op) && !Cuts(w, op, a)
    ensures Middleware(Next(w, op), a) == Middleware(w, a)
  {
  }

  lemma FailureLoses(w: World, op: Op, a: nat)
    requires Fails(op)
    ensures Theirs(Middleware(w, a)) == Theirs(Middleware(Next(w, op), a)) + LostIn(w, op, a)
  {
    NoneLost(Theirs(Middleware(w, a)), []);
    if Cuts(w, op, a) {
      CutLoses(Middleware(w, a), FastApi.Ours(op.labels.service, op.path), op.done);
    } else {
      FailureWithoutCut(w, op, a);
    }
  }

  /** What a step other than a failed attempt puts in front. */
  function Front(w: World, op: Op, a: nat): seq<FastApi.Part> {
    if NoOp(w, op) || op.app != a then []
    else if op.InstallFast? then [FastApi.Ours(op.labels.service, op.path)]
    else if op.AddMiddleware? then [FastApi.Theirs(op.id)]
    else []
  }

  lemma NextFront(w: World, op: Op, a: nat)
    requires !Fails(op)
    ensures Middleware(Next(w, op), a) == Front(w, op, a) + Middleware(w, a)
  {
    assert [] + Middleware(w, a) == Middleware(w, a);
  }

  lemma FrontSame(v: World, w: World, op: Op, a: nat)
    requires Same(v, w)
    ensures Front(v, op, a) == Front(w, op, a)
  {
    assert SameFlask(FlaskIn(v.flask, op.app), FlaskIn(w.flask, op.app));
    assert SameFast(FastIn(v.fast, op.app), FastIn(w.fast, op.app));
  }

  lemma FrontTheirs(w: World, op: Op, a: nat)
    requires !Fails(op)
    ensures Theirs(Middleware(Next(w, op), a)) == Theirs(Front(w, op, a)) + Theirs(Middleware(w, a))
  {
    NextFront(w, op, a);
    TheirsAppend(Front(w, op, a), Middleware(w, a));
  }

  /** w's list of the consumer's middlewares on app a is v's, followed by gone. */
  ghost predicate Ahead(v: World, w: World, a: nat, gone: seq<nat>) {
    Theirs(Middleware(w, a)) == Theirs(Middleware(v, a)) + gone
  }

  lemma FailureAhead(v: World, w: World, op: Op, a: nat, gone: seq<nat>)
    requires Fails(op) && Ahead(v, w, a, gone)
    ensures Ahead(Next(v, op), w, a, LostIn(v, op, a) + gone)
  {
    FailureLoses(v, op, a);
    Regroup(Theirs(Middleware(Next(v, op), a)), LostIn(v, op, a), gone);
  }

  lemma OtherAhead(v: World, w: World, op: Op, a: nat, gone: seq<nat>)
    requires !Fails(op) && Front(v, op, a) == Front(w, op, a) && Ahead(v, w, a, gone)
    ensures Ahead(Next(v, op), Next(w, op), a, gone)
  {
    FrontTheirs(v, op, a);
    FrontTheirs(w, op, a);
    Regroup(Theirs(Front(v, op, a)), Theirs(Middleware(v, a)), gone);
  }

  lemma {:induction false} LostFrom(v: World, w: World, ops: seq<Op>, a: nat, gone: seq<nat>)
    requires Good(v) && Good(w) && Same(v, w) && Ahead(v, w, a, gone)
    ensures Ahead(Run(v, ops), Run(w, WithoutFailed(ops)), a, Lost(v, ops, a) + gone)
    decreases |ops|
  {
    if ops == [] {
      NoneLost(gone, []);
    } else {
      var op, rest := ops[0], ops[1..];
      NextKeepsGood(v, op);
      if Fails(op) {
        FailureIsSame(v, op);
        SameTrans(Next(v, op), v, w);
        FailureAhead(v, w, op, a, gone);
        NoneLost(WithoutFailed(rest), []);
        LostFrom(Next(v, op), w, rest, a, LostIn(v, op, a) + gone);
        Regroup(Lost(Next(v, op), rest, a), LostIn(v, op, a), gone);
      } else {
        NextKeepsGood(w, op);
        NextRespectsSame(v, w, op);
        FrontSame(v, w, op, a);
        OtherAhead(v, w, op, a, gone);
        assert WithoutFailed(ops)[1..] == WithoutFailed(rest);
        LostFrom(Next(v, op), Next(w, op), rest, a, gone);
        NoneLost(Lost(Next(v, op), rest, a), []);
      }
    }
  }

  /** The consumer's middlewares that would be on an app without the failed
      attempts are those that are on it, followed by exactly those its failed
      attempts cut off: each the innermost one at the time. So the consumer's
      middlewares survive a run exactly when nothing was lost. */
  lemma MiddlewareLost(w: World, ops: seq<Op>, a: nat)
    requires Good(w)
    ensures var kept, expected := Theirs(Middleware(Run(w, ops), a)), Theirs(Middleware(Run(w, WithoutFailed(ops)), a));
            && expected == kept + Lost(w, ops, a)
            && (kept == expected <==> Lost(w, ops, a) == [])
  {
    NoneLost(Theirs(Middleware(w, a)), []);
    LostFrom(w, w, ops, a, []);
    NoneLost(Lost(w, ops, a), []);
    NoneLost(Theirs(Middleware(Run(w, ops), a)), Lost(w, ops, a));
  }

  predicate NeverCuts(w: World, ops: seq<Op>, a: nat)
    decreases |ops|
  {
    ops == [] || (!Cuts(w, ops[0], a) && NeverCuts(Next(w, ops[0]), ops[1..], a))
  }

  /** An app that is not installed carries no middleware of ours. */
  predicate Untouched(w: World, a: nat) {
    !FastIn(w.fast, a).state.installed ==> forall p <- Middleware(w, a) :: p.Theirs?
  }

  lemma {:induction false} ErasableWithoutCuts(v: World, w: World, ops: seq<Op>, a: nat)
    requires Good(v) && Good(w) && Same(v, w) && Middleware(v, a) == Middleware(w, a) && NeverCuts(v, ops, a)
    ensures Middleware(Run(v, ops), a) == Middleware(Run(w, WithoutFailed(ops)), a)
    decreases |ops|
  {
    if ops != [] {
      var op, rest := ops[0], ops[1..];
      NextKeepsGood(v, op);
      if Fails(op) {
        FailureIsSame(v, op);
        SameTrans(Next(v, op), v, w);
        FailureWithoutCut(v, op, a);
        assert [] + WithoutFailed(rest) == WithoutFailed(rest);
        ErasableWithoutCuts(Next(v, op), w, rest, a);
      } else {
        NextKeepsGood(w, op);
        NextRespectsSame(v, w, op);
        NextFront(v, op, a);
        NextFront(w, op, a);
        FrontSame(v, w, op, a);
        assert ([op] + WithoutFailed(rest))[1..] == WithoutFailed(rest);
        ErasableWithoutCuts(Next(v, op), Next(w, op), rest, a);
      }
    }
  }

  lemma {:induction false} FirstCutLoses(w: World, ops: seq<Op>, a: nat)
    requires Untouched(w, a) && (forall op <- ops :: !op.DropFast?) && !NeverCuts(w, ops, a)
    ensures Lost(w, ops, a) != []
    decreases |ops|
  {
    var middleware := Middleware(w, a);
    if Cuts(w, ops[0], a) {
      assert middleware[|middleware| - 1] in middleware;
    } else {
      assert Untouched(Next(w, ops[0]), a);
      FirstCutLoses(Next(w, ops[0]), ops[1..], a);
    }
  }

  /** Where sentinels are left alone, the middleware list of an app is that of
      the run without the failed attempts exactly when none of them failed after
      adding its middleware to an app that had one already. */
  lemma MiddlewareErasableExactly(w: World, ops: seq<Op>, a: nat)
    requires Good(w) && Untouched(w, a) && forall op <- ops :: !op.DropFast?
    ensures Middleware(Run(w, ops), a) == Middleware(Run(w, WithoutFailed(ops)), a) <==> NeverCuts(w, ops, a)
  {
    if NeverCuts(w, ops, a) {
      ErasableWithoutCuts(w, w, ops, a);
    } else {
      FirstCutLoses(w, ops, a);
      MiddlewareLost(w, ops, a);
    }
  }

  /** What a run puts in front of a list that is never cut: the middlewares of the
      successful attempts and of the consumer, the newest first. */
  function FrontsOf(w: World, ops: seq<Op>, a: nat): seq<FastApi.Part>
    decreases |ops|
  {
    if ops == [] then []
    else FrontsOf(Next(w, ops[0]), ops[1..], a) + if Fails(ops[0]) then [] else Front(w, ops[0], a)
  }

  lemma {:induction false} MiddlewareAsAsked(w: World, ops: seq<Op>, a: nat)
    requires NeverCuts(w, ops, a)
    ensures Middleware(Run(w, ops), a) == FrontsOf(w, ops, a) + Middleware(w, a)
    decreases |ops|
  {
    NoneLost(Middleware(w, a), []);
    if ops != [] {
      var op, w', rest := ops[0], Next(w, ops[0]), ops[1..];
      MiddlewareAsAsked(w', rest, a);
      if Fails(op) {
        FailureWithoutCut(w, op, a);
        NoneLost(FrontsOf(w', rest, a), []);
      } else {
        NextFront(w, op, a);
        Regroup(FrontsOf(w', rest, a), Front(w, op, a), Middleware(w, a));
      }
    }
  }
}
