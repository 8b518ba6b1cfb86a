/** install_flask: hooks, an exception receiver and the metrics view are added
    to an app after the shared steps; the except block restores the hook lists
    from snapshots, disconnects the receiver and rebuilds the URL map. */
module Flask {
  import opened Wrappers
  import opened BuildInfo
  import opened PyProcess

  // The steps after the shared ones.
  const BEFORE_HOOKED: nat := 4
  const AFTER_HOOKED: nat := 5
  const SIGNAL_CONNECTED: nat := 6
  const VIEW_ADDED: nat := 7

  /** A hook, receiver or rule: ours, with the service and path its closure
      captured, or somebody else's. */
  datatype Part = Ours(service: string, path: string) | Theirs(id: nat)

  datatype Sentinel = Sentinel(service: string, version: string, exempt: set<string>)

  /** A hook list is None until the first hook of its kind is registered. The
      receivers are those of the exception signal for this app, which holds each
      only weakly. */
  datatype App = App(
    sentinel: Option<Sentinel>,
    before: Option<seq<Part>>,
    after: Option<seq<Part>>,
    receivers: seq<Part>,
    rules: seq<Part>)

  function Hooks(list: Option<seq<Part>>): seq<Part> {
    list.GetOr([])
  }

  /** The endpoint name of a rule: the metrics view's is the same in every app. */
  datatype Endpoint = MetricsView | Other(id: nat)

  function EndpointOf(rule: Part): Endpoint {
    match rule
    case Ours(_, _) => MetricsView
    case Theirs(id) => Other(id)
  }

  function Endpoints(rules: seq<Part>): set<Endpoint> {
    set rule <- rules :: EndpointOf(rule)
  }

  /** The receivers that are not ours, in order. */
  function Foreign(receivers: seq<Part>): seq<Part> {
    if receivers == [] then []
    else (if receivers[0].Theirs? then [receivers[0]] else []) + Foreign(receivers[1..])
  }

  /** A hook list that registering created stays behind, empty. */
  function Kept(list: Option<seq<Part>>, created: bool): Option<seq<Part>> {
    if list.None? && created then Some([]) else list
  }

  // ---- What one attempt promises ----

  function AppAfter(a: App, l: Labels, path: string, done: nat): App {
    var ours := Ours(l.service, path);
    if VIEW_ADDED <= done then
      App(Some(Sentinel(l.service, l.version, ExemptPaths(path))),
          Some(Hooks(a.before) + [ours]), Some(Hooks(a.after) + [ours]), a.receivers, a.rules + [ours])
    else
      a.(before := Kept(a.before, BEFORE_HOOKED <= done), after := Kept(a.after, AFTER_HOOKED <= done),
         receivers := Foreign(a.receivers))
  }

  class FlaskApp {
    var sentinel: Option<Sentinel>
    var before: Option<seq<Part>>
    var after: Option<seq<Part>>
    var receivers: seq<Part>
    var rules: seq<Part>

    ghost function View(): App
      reads this
    {
      App(sentinel, before, after, receivers, rules)
    }

    constructor ()
      ensures View() == App(None, None, None, [], [])
    {
      sentinel, before, after, receivers, rules := None, None, None, [], [];
    }

    /** The try block after the shared steps. */
    method Wire(l: Labels, path: string, done: nat)
      modifies `before, `after, `receivers, `rules
      ensures before == if BEFORE_HOOKED <= done then Some(old(Hooks(before)) + [Ours(l.service, path)])
                        else old(before)
      ensures after == if AFTER_HOOKED <= done then Some(old(Hooks(after)) + [Ours(l.service, path)])
                       else old(after)
      ensures receivers == old(receivers) + if SIGNAL_CONNECTED <= done then [Ours(l.service, path)] else []
      ensures rules == old(rules) + if VIEW_ADDED <= done then [Ours(l.service, path)] else []
    {
      var ours := Ours(l.service, path);
      if done < BEFORE_HOOKED { return; }
      before := Some(before.GetOr([]) + [ours]);
      if done < AFTER_HOOKED { return; }
      after := Some(after.GetOr([]) + [ours]);
      if done < SIGNAL_CONNECTED { return; }
      receivers := receivers + [ours];
      if done < VIEW_ADDED { return; }
      rules := rules + [ours];
    }

    /** Disconnects every receiver that has our handler's name. */
    method DisconnectOurs()
      modifies `receivers
      ensures receivers == Foreign(old(receivers))
    {
      var kept, k := [], 0;
      while k < |receivers|
        invariant 0 <= k <= |receivers|
        invariant kept + Foreign(receivers[k..]) == Foreign(receivers)
      {
        assert receivers[k..][1..] == receivers[k + 1..];
        if receivers[k].Theirs? {
          kept := kept + [receivers[k]];
        }
        k := k + 1;
      }
      assert kept + [] == kept;
      receivers := kept;
    }

    /** A successful call returns: nothing but the signal refers to the receiver
        it has just connected, so that one is gone. */
    method Return()
      requires receivers != []
      modifies `receivers
      ensures receivers == old(receivers)[..|old(receivers)| - 1]
    {
      receivers := receivers[..|receivers| - 1];
    }

    /** The except block's part on the app, with its snapshots. The rules are
        rebuilt only if an endpoint name is new. */
    method Unwire(preBefore: seq<Part>, preAfter: seq<Part>, preRules: seq<Part>)
      modifies this
      ensures sentinel == None
      ensures before == (if old(before).Some? then Some(preBefore) else None)
      ensures after == (if old(after).Some? then Some(preAfter) else None)
      ensures receivers == Foreign(old(receivers))
      ensures rules == if Endpoints(old(rules)) - Endpoints(preRules) != {} then preRules else old(rules)
    {
      sentinel := None;
      if before.Some? {
        before := Some(preBefore);
      }
      if after.Some? {
        after := Some(preAfter);
      }
      DisconnectOurs();
      var addedEndpoints := Endpoints(rules) - Endpoints(preRules);
      if addedEndpoints != {} {
        rules := preRules;
      }
    }
  }

  /** One call of install_flask; done is the number of steps that complete. A
      failed call leaves the process exactly as it found it, the collector by
      identity, and the app as AppAfter says. */
  method InstallFlask(proc: PyProcess, app: FlaskApp, l: Labels, path: string, done: nat) returns (raised: bool)
    requires proc.Valid()
    modifies proc, proc.collectors, proc.buildInfo, app
    ensures proc.Valid()
    ensures old(app.sentinel).Some? ==> !raised && app.View() == old(app.View()) && proc.View() == old(proc.View())
    ensures old(app.sentinel).None? ==>
              && raised == (done < VIEW_ADDED)
              && app.View() == AppAfter(old(app.View()), l, path, done)
              && proc.View() == SharedAfter(old(proc.View()), old(proc.collectors.nextId), l, raised)
              && proc.collectors.nextId == NextAfter(old(proc.View()), old(proc.collectors.nextId), l, done)
  {
    if app.sentinel.Some? {
      return false;
    }
    app.sentinel := Some(Sentinel(l.service, l.version, ExemptPaths(path)));
    var preBefore, preAfter, preRules := app.before.GetOr([]), app.after.GetOr([]), app.rules;
    ghost var before, next := proc.View(), proc.collectors.nextId;
    var undo := proc.Begin(l, done);
    app.Wire(l, path, done);
    raised := done < VIEW_ADDED;
    if raised {
      OursDropped(old(app.receivers), Ours(l.service, path));
      app.Unwire(preBefore, preAfter, preRules);
      proc.RollBack(undo, before, next, l, done);
    } else {
      app.Return();
      BegunCommits(before, next, proc.View(), l, done, undo);
    }
  }

  lemma {:induction false} ForeignExactly(receivers: seq<Part>)
    ensures Foreign(receivers) == receivers <==> forall p <- receivers :: p.Theirs?
    ensures |Foreign(receivers)| <= |receivers|
  {
    if receivers != [] {
      ForeignExactly(receivers[1..]);
      if receivers[0].Theirs? {
        assert receivers == [receivers[0]] + receivers[1..];
        assert Foreign(receivers)[1..] == Foreign(receivers[1..]);
      } else {
        assert receivers[0] in receivers;
      }
    }
  }

  lemma {:induction false} ForeignSnoc(receivers: seq<Part>, p: Part)
    ensures Foreign(receivers + [p]) == Foreign(receivers) + if p.Theirs? then [p] else []
  {
    if receivers != [] {
      assert (receivers + [p])[1..] == receivers[1..] + [p];
      ForeignSnoc(receivers[1..], p);
    }
  }

  lemma OursDropped(receivers: seq<Part>, p: Part)
    requires p.Ours?
    ensures Foreign(receivers + [p]) == Foreign(receivers) == Foreign(receivers + [])
  {
    ForeignSnoc(receivers, p);
    assert receivers + [] == receivers;
  }

  /** A failed attempt restores the hook lists, rules and sentinel; it restores
      the receivers exactly when none of ours was connected before, as after any
      call that has returned. */
  lemma FailureRestoresApp(a: App, l: Labels, path: string, done: nat)
    requires done < VIEW_ADDED
    ensures var a' := AppAfter(a, l, path, done);
            && Hooks(a'.before) == Hooks(a.before) && Hooks(a'.after) == Hooks(a.after)
            && a'.rules == a.rules && a'.sentinel == a.sentinel
            && (a'.receivers == a.receivers <==> forall p <- a.receivers :: p.Theirs?)
            && (a' == a <==>
                  && (forall p <- a.receivers :: p.Theirs?)
                  && (BEFORE_HOOKED <= done ==> a.before.Some?) && (AFTER_HOOKED <= done ==> a.after.Some?))
  {
    ForeignExactly(a.receivers);
  }
}
