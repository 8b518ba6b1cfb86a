/** install_fastapi: the middleware list is rolled back by cutting it to its old
    length from the end, but middlewares are added at the front. */
module FastApi {
  import opened Wrappers
  import opened BuildInfo
  import opened PyProcess

  // The steps after the shared ones.
  const MIDDLEWARE_ADDED: nat := 4
  const ROUTE_EXPOSED: nat := 5

  datatype Part = Ours(service: string, path: string) | Theirs(id: nat)

  /** The attributes of app.state; installed is false or absent when not installed. */
  datatype AppState = AppState(
    service: Option<string>,
    version: Option<string>,
    exempt: Option<set<string>>,
    installed: bool)

  const CLEARED := AppState(None, None, None, false)

  /** middleware is outermost first. */
  datatype App = App(state: AppState, middleware: seq<Part>, routes: seq<Part>)

  function StateFor(l: Labels, path: string): AppState {
    AppState(Some(l.service), Some(l.version), Some(ExemptPaths(path)), true)
  }

  /** The middleware list after a failed attempt that had got to step done. */
  function CutBack(middleware: seq<Part>, ours: Part, done: nat): seq<Part> {
    if done < MIDDLEWARE_ADDED then middleware else ([ours] + middleware)[..|middleware|]
  }

  function AppAfter(a: App, l: Labels, path: string, done: nat): App {
    var ours := Ours(l.service, path);
    if ROUTE_EXPOSED <= done then App(StateFor(l, path), [ours] + a.middleware, a.routes + [ours])
    else App(CLEARED, CutBack(a.middleware, ours, done), a.routes)
  }

  class FastApiApp {
    var state: AppState
    var middleware: seq<Part>
    var routes: seq<Part>

    ghost function View(): App
      reads this
    {
      App(state, middleware, routes)
    }

    constructor ()
      ensures View() == App(CLEARED, [], [])
    {
      state, middleware, routes := CLEARED, [], [];
    }

    /** app.add_middleware: the newest middleware becomes the outermost. */
    method AddMiddleware(part: Part)
      modifies `middleware
      ensures middleware == [part] + old(middleware)
    {
      middleware := [part] + middleware;
    }

    /** Everything from StateFor to the sentinel, and the except block's part. */
    method Wire(l: Labels, path: string, done: nat)
      modifies this
      ensures View() == AppAfter(old(View()), l, path, done)
    {
      var ours := Ours(l.service, path);
      state := StateFor(l, path);
      var middlewareCount, routeCount := |middleware|, |routes|;
      label Try: {
        if done < MIDDLEWARE_ADDED { break Try; }
        AddMiddleware(ours);
        if done < ROUTE_EXPOSED { break Try; }
        routes := routes + [ours];
        return;
      }
      state := CLEARED;
      middleware := middleware[..middlewareCount];
      routes := routes[..routeCount];
    }
  }

  /** One call of install_fastapi. A failed call leaves the process exactly as it
      found it; of the app it keeps the promise only as AppAfter says. */
  method InstallFastApi(proc: PyProcess, app: FastApiApp, l: Labels, path: string, done: nat) returns (raised: bool)
    requires proc.Valid()
    modifies proc, proc.collectors, proc.buildInfo, app
    ensures proc.Valid()
    ensures old(app.state.installed) ==> !raised && app.View() == old(app.View()) && proc.View() == old(proc.View())
    ensures !old(app.state.installed) ==>
              && raised == (done < ROUTE_EXPOSED)
              && app.View() == AppAfter(old(app.View()), l, path, done)
              && proc.View() == SharedAfter(old(proc.View()), old(proc.collectors.nextId), l, raised)
              && proc.collectors.nextId == NextAfter(old(proc.View()), old(proc.collectors.nextId), l, done)
  {
    if app.state.installed {
      return false;
    }
    ghost var before, next := proc.View(), proc.collectors.nextId;
    var undo := proc.Begin(l, done);
    app.Wire(l, path, done);
    raised := done < ROUTE_EXPOSED;
    if raised {
      proc.RollBack(undo, before, next, l, done);
    } else {
      BegunCommits(before, next, proc.View(), l, done, undo);
    }
  }

  /** Cutting from the end restores the middleware list exactly when ours was
      not added yet or there was no other: otherwise ours stays, outermost, and
      the app's own innermost middleware is lost. The length is always right. */
  lemma MiddlewareRestoredExactly(a: App, l: Labels, path: string, done: nat)
    requires done < ROUTE_EXPOSED && forall p <- a.middleware :: p.Theirs?
    ensures var after := AppAfter(a, l, path, done).middleware;
            && |after| == |a.middleware|
            && (after == a.middleware <==> done < MIDDLEWARE_ADDED || a.middleware == [])
            && (after != a.middleware ==>
                  after == [Ours(l.service, path)] + a.middleware[..|a.middleware| - 1])
  {
    var ours := Ours(l.service, path);
    if a.middleware != [] {
      assert a.middleware[0] in a.middleware;
      assert ([ours] + a.middleware)[..|a.middleware|] == [ours] + a.middleware[..|a.middleware| - 1];
    }
  }
}
