/** The Go progress tracker: Inc, SetTotal and tick each hold a mutex for their
    own part and write the exported series after releasing it, so any number of
    goroutines interleave between the two. */
module GoProgress {
  import opened Wrappers
  import P = Progress

  /** What a tick carries out of its critical section. */
  datatype Snapshot = Snapshot(remaining: real, rate: real)

  /** inflight: amounts added to processed but not yet to the exported counter.
      snapshots: ticks that have left the mutex. */
  datatype State = State(
    tracker: P.Tracker,
    exported: real,
    inflight: seq<real>,
    snapshots: seq<Snapshot>,
    remainingGauge: real,
    rateGauge: real)

  function Start(total: real, now: real): State {
    State(P.Tracker(0.0, total, None, 0.0, now), 0.0, [], [], total, 0.0)
  }

  datatype Step =
    | IncLocked(n: real)            // processed += n
    | IncExported(i: nat)           // the counter catches up with one Inc
    | SetTotalLocked(total: real)
    | TickLocked(now: real)         // now was read before the mutex was taken
    | WriteRemaining(i: nat)        // gauge writes, each from some tick's snapshot
    | WriteRate(i: nat)

  /** Negative amounts and totals panic before taking the mutex; an Inc of zero
      returns at once. */
  predicate Enabled(s: State, step: Step) {
    match step
    case IncLocked(n) => n > 0.0
    case IncExported(i) => i < |s.inflight|
    case SetTotalLocked(total) => total >= 0.0
    case TickLocked(_) => true
    case WriteRemaining(i) => i < |s.snapshots|
    case WriteRate(i) => i < |s.snapshots|
  }

  function Without(xs: seq<real>, i: nat): seq<real>
    requires i < |xs|
  {
    xs[..i] + xs[i + 1..]
  }

  function Next(s: State, step: Step, window: real): State
    requires window > 0.0 && Enabled(s, step)
  {
    match step
    case IncLocked(n) => s.(tracker := P.Next(s.tracker, P.Inc(n), window), inflight := s.inflight + [n])
    case IncExported(i) => s.(exported := s.exported + s.inflight[i], inflight := Without(s.inflight, i))
    case SetTotalLocked(total) => s.(tracker := P.Next(s.tracker, P.SetTotal(total), window))
    case TickLocked(now) =>
      var t := P.Ticked(s.tracker, now, window);
      s.(tracker := t, snapshots := s.snapshots + [Snapshot(P.Remaining(t), t.rate.GetOr(0.0))])
    case WriteRemaining(i) => s.(remainingGauge := s.snapshots[i].remaining)
    case WriteRate(i) => s.(rateGauge := s.snapshots[i].rate)
  }

  predicate ValidRun(s: State, run: seq<Step>, window: real)
    requires window > 0.0
    decreases |run|
  {
    run == [] || (Enabled(s, run[0]) && ValidRun(Next(s, run[0], window), run[1..], window))
  }

  function Run(s: State, run: seq<Step>, window: real): State
    requires window > 0.0 && ValidRun(s, run, window)
    decreases |run|
  {
    if run == [] then s else Run(Next(s, run[0], window), run[1..], window)
  }

  class GoTracker {
    const window: real
    // under the mutex
    var processed: real
    var total: real
    var rateEwma: real
    var rateEwmaValid: bool
    var lastProcessed: real
    var lastTick: real
    // exported, outside it
    var exported: real
    var inflight: seq<real>
    var snapshots: seq<Snapshot>
    var remainingGauge: real
    var rateGauge: real

    ghost predicate Valid()
      reads this
    {
      window > 0.0 && (!rateEwmaValid ==> rateEwma == 0.0)
    }

    ghost function View(): State
      reads this
    {
      State(P.Tracker(processed, total, if rateEwmaValid then Some(rateEwma) else None, lastProcessed, lastTick),
            exported, inflight, snapshots, remainingGauge, rateGauge)
    }

    constructor (total: real, window: real, now: real)
      requires window > 0.0
      ensures Valid() && this.window == window && View() == Start(total, now)
    {
      this.window, this.total := window, total;
      processed, rateEwma, rateEwmaValid, lastProcessed, lastTick := 0.0, 0.0, false, 0.0, now;
      exported, inflight, snapshots, remainingGauge, rateGauge := 0.0, [], [], total, 0.0;
    }

    /** Inc up to releasing the mutex. */
    method LockedInc(n: real) returns (panicked: bool)
      requires Valid()
      modifies `processed, `inflight
      ensures Valid() && (panicked <==> n < 0.0)
      ensures View() == if n > 0.0 then Next(old(View()), IncLocked(n), window) else old(View())
    {
      if n < 0.0 { return true; }
      if n == 0.0 { return false; }
      processed := processed + n;
      inflight := inflight + [n];
      return false;
    }

    /** The rest of one Inc: the exported counter. */
    method ExportInc(i: nat)
      requires Valid() && i < |inflight|
      modifies `exported, `inflight
      ensures Valid() && View() == Next(old(View()), IncExported(i), window)
    {
      exported := exported + inflight[i];
      inflight := Without(inflight, i);
    }

    method LockedSetTotal(newTotal: real) returns (panicked: bool)
      requires Valid()
      modifies `total
      ensures Valid() && (panicked <==> newTotal < 0.0)
      ensures View() == if newTotal < 0.0 then old(View()) else Next(old(View()), SetTotalLocked(newTotal), window)
    {
      if newTotal < 0.0 { return true; }
      total := newTotal;
      return false;
    }

    /** tick up to releasing the mutex, and the values it takes along. */
    method LockedTick(now: real)
      requires Valid()
      modifies `rateEwma, `rateEwmaValid, `lastProcessed, `lastTick, `snapshots
      ensures Valid() && View() == Next(old(View()), TickLocked(now), window)
    {
      var elapsed := now - lastTick;
      if elapsed > 0.0 {
        var instant := (processed - lastProcessed) / elapsed;
        var alpha := P.Alpha(elapsed, window);
        rateEwma := P.NextRate(if rateEwmaValid then Some(rateEwma) else None, instant, alpha);
        rateEwmaValid := true;
      }
      lastProcessed := processed;
      lastTick := now;
      var remaining := if total - processed > 0.0 then total - processed else 0.0;
      snapshots := snapshots + [Snapshot(remaining, rateEwma)];
    }

    /** The rest of a tick, one gauge at a time. */
    method SetRemaining(i: nat)
      requires Valid() && i < |snapshots|
      modifies `remainingGauge
      ensures Valid() && View() == Next(old(View()), WriteRemaining(i), window)
    {
      remainingGauge := snapshots[i].remaining;
    }

    method SetRate(i: nat)
      requires Valid() && i < |snapshots|
      modifies `rateGauge
      ensures Valid() && View() == Next(old(View()), WriteRate(i), window)
    {
      rateGauge := snapshots[i].rate;
    }
  }

  // ---- Every interleaving ----

  lemma {:induction false} SumAppend(xs: seq<real>, ys: seq<real>)
    ensures P.Sum(xs + ys) == P.Sum(xs) + P.Sum(ys)
  {
    if xs == [] {
      assert xs + ys == ys;
    } else {
      assert (xs + ys)[1..] == xs[1..] + ys;
      SumAppend(xs[1..], ys);
    }
  }

  lemma SumWithout(xs: seq<real>, i: nat)
    requires i < |xs|
    ensures P.Sum(Without(xs, i)) == P.Sum(xs) - xs[i]
  {
    SumAppend(xs[..i], xs[i + 1..]);
    SumAppend(xs[..i], xs[i..]);
    assert xs[..i] + xs[i..] == xs && xs[i..][1..] == xs[i + 1..];
  }

  predicate AllPositive(xs: seq<real>) {
    forall i | 0 <= i < |xs| :: xs[i] > 0.0
  }

  /** processed is what has been exported plus what is in flight; ticks never see
      more than was done; rates and remaining work are never negative. */
  ghost predicate Inv(s: State) {
    && s.tracker.processed == s.exported + P.Sum(s.inflight)
    && s.tracker.lastProcessed <= s.tracker.processed
    && s.tracker.rate.GetOr(0.0) >= 0.0
    && AllPositive(s.inflight)
    && (forall p <- s.snapshots :: p.remaining >= 0.0 && p.rate >= 0.0)
    && s.remainingGauge >= 0.0 && s.rateGauge >= 0.0
  }

  lemma RateStaysNonNegative(rate: Option<real>, instant: real, alpha: real)
    requires rate.GetOr(0.0) >= 0.0 && instant >= 0.0 && 0.0 <= alpha <= 1.0
    ensures P.NextRate(rate, instant, alpha) >= 0.0
  {
    assert alpha * instant >= 0.0 && (1.0 - alpha) * rate.GetOr(0.0) >= 0.0;
  }

  lemma TickKeepsInv(s: State, now: real, window: real)
    requires window > 0.0 && Inv(s)
    ensures P.Ticked(s.tracker, now, window).rate.GetOr(0.0) >= 0.0
  {
    var t := s.tracker;
    var elapsed := now - t.lastTick;
    if elapsed > 0.0 {
      assert elapsed / window > 0.0;
      assert (t.processed - t.lastProcessed) / elapsed >= 0.0;
      RateStaysNonNegative(t.rate, (t.processed - t.lastProcessed) / elapsed, P.Alpha(elapsed, window));
    }
  }

  lemma NextKeepsInv(s: State, step: Step, window: real)
    requires window > 0.0 && Inv(s) && Enabled(s, step)
    ensures Inv(Next(s, step, window))
  {
    match step
    case IncLocked(n) =>
      SumAppend(s.inflight, [n]);
      assert [n][1..] == [] && P.Sum([n]) == n;
    case IncExported(i) =>
      SumWithout(s.inflight, i);
    case SetTotalLocked(_) =>
    case TickLocked(now) =>
      TickKeepsInv(s, now, window);
    case WriteRemaining(_) =>
    case WriteRate(_) =>
  }

  /** In every interleaving of any number of Incs, SetTotals and ticks, with
      clock readings in any order. */
  lemma {:induction false} InvAlways(s: State, run: seq<Step>, window: real)
    requires window > 0.0 && Inv(s) && ValidRun(s, run, window)
    ensures Inv(Run(s, run, window))
    decreases |run|
  {
    if run != [] {
      NextKeepsInv(s, run[0], window);
      InvAlways(Next(s, run[0], window), run[1..], window);
    }
  }

  lemma {:induction false} SumPositive(xs: seq<real>)
    requires AllPositive(xs)
    ensures P.Sum(xs) >= 0.0 && (xs != [] ==> P.Sum(xs) > 0.0)
  {
    if xs != [] {
      SumPositive(xs[1..]);
    }
  }

  /** The exported counter never runs ahead of the work done, and has caught up
      exactly when no Inc is in flight. */
  lemma ExportedCatchesUp(total: real, now: real, run: seq<Step>, window: real)
    requires window > 0.0 && total >= 0.0 && ValidRun(Start(total, now), run, window)
    ensures var s := Run(Start(total, now), run, window);
            s.exported <= s.tracker.processed && (s.exported == s.tracker.processed <==> s.inflight == [])
  {
    InvAlways(Start(total, now), run, window);
    SumPositive(Run(Start(total, now), run, window).inflight);
  }

  // ---- What is published ----

  /** What a step means to the tracker. */
  function EventOf(step: Step): seq<P.Event> {
    match step
    case IncLocked(n) => [P.Inc(n)]
    case SetTotalLocked(total) => [P.SetTotal(total)]
    case TickLocked(now) => [P.TickAt(now, 0.0)]
    case _ => []
  }

  function EventsOf(run: seq<Step>): seq<P.Event> {
    if run == [] then [] else EventOf(run[0]) + EventsOf(run[1..])
  }

  /** The tick of a step, as the gauges are to show it afterwards. */
  function Taken(t: P.Tracker, step: Step): seq<Snapshot> {
    if step.TickLocked? then
      [Snapshot(if t.total > t.processed then t.total - t.processed else 0.0,
                if t.rate.Some? then t.rate.value else 0.0)]
    else []
  }

  /** The snapshots of a run's ticks, each of the tracker that the calls and ticks
      up to it make, in the order they went through the mutex. */
  function SnapshotsOf(t: P.Tracker, run: seq<Step>, window: real): seq<Snapshot>
    requires window > 0.0
    decreases |run|
  {
    if run == [] then []
    else
      var t' := P.Run(t, EventOf(run[0]), window);
      Taken(t', run[0]) + SnapshotsOf(t', run[1..], window)
  }

  lemma OneEvent(t: P.Tracker, step: Step, window: real)
    requires window > 0.0
    ensures P.Run(t, EventOf(step), window) == if EventOf(step) == [] then t else P.Next(t, EventOf(step)[0], window)
  {
    if EventOf(step) != [] { assert EventOf(step)[1..] == []; }
  }

  lemma NextPublishes(s: State, step: Step, window: real)
    requires window > 0.0 && Enabled(s, step)
    ensures var s', t' := Next(s, step, window), P.Run(s.tracker, EventOf(step), window);
            s'.tracker == t' && s'.snapshots == s.snapshots + Taken(t', step)
  {
    OneEvent(s.tracker, step, window);
    assert s.snapshots + [] == s.snapshots;
  }

  lemma {:induction false} RunAppend(t: P.Tracker, first: seq<P.Event>, rest: seq<P.Event>, window: real)
    requires window > 0.0
    ensures P.Run(t, first + rest, window) == P.Run(P.Run(t, first, window), rest, window)
    decreases |first|
  {
    if first == [] {
      assert first + rest == rest;
    } else {
      assert (first + rest)[1..] == first[1..] + rest;
      RunAppend(P.Next(t, first[0], window), first[1..], rest, window);
    }
  }

  /** In every interleaving the tracker is that of the calls and ticks in the order
      they took the mutex, and the ticks carry out the work left, never below
      zero, and the rate of just that tracker. */
  lemma {:induction false} TicksPublish(s: State, run: seq<Step>, window: real)
    requires window > 0.0 && ValidRun(s, run, window)
    ensures Run(s, run, window).tracker == P.Run(s.tracker, EventsOf(run), window)
    ensures Run(s, run, window).snapshots == s.snapshots + SnapshotsOf(s.tracker, run, window)
    decreases |run|
  {
    if run == [] {
      assert s.snapshots + [] == s.snapshots;
    } else {
      var s', t' := Next(s, run[0], window), P.Run(s.tracker, EventOf(run[0]), window);
      NextPublishes(s, run[0], window);
      TicksPublish(s', run[1..], window);
      RunAppend(s.tracker, EventOf(run[0]), EventsOf(run[1..]), window);
      Regroup(s.snapshots, Taken(t', run[0]), SnapshotsOf(t', run[1..], window));
    }
  }

  lemma Regroup(a: seq<Snapshot>, b: seq<Snapshot>, c: seq<Snapshot>)
    ensures a + b + c == a + (b + c)
  {
  }

  /** The snapshots the two gauges were last written from. */
  function LastWritten(run: seq<Step>, remaining: bool): Option<nat> {
    if run == [] then None
    else
      var last := run[|run| - 1];
      if remaining && last.WriteRemaining? then Some(last.i)
      else if !remaining && last.WriteRate? then Some(last.i)
      else LastWritten(run[..|run| - 1], remaining)
  }

  /** A gauge shows its own field of the snapshot it was last written from. */
  ghost predicate Shown(s: State, remaining: Option<nat>, rate: Option<nat>) {
    && (remaining.Some? ==> remaining.value < |s.snapshots|
                            && s.remainingGauge == s.snapshots[remaining.value].remaining)
    && (rate.Some? ==> rate.value < |s.snapshots| && s.rateGauge == s.snapshots[rate.value].rate)
  }

  lemma {:induction false} GaugesShow(s: State, past: seq<Step>, run: seq<Step>, window: real)
    requires window > 0.0 && ValidRun(s, run, window)
    requires Shown(s, LastWritten(past, true), LastWritten(past, false))
    ensures Shown(Run(s, run, window), LastWritten(past + run, true), LastWritten(past + run, false))
    decreases |run|
  {
    if run == [] {
      assert past + run == past;
    } else {
      var next := past + [run[0]];
      assert next[..|past|] == past;
      assert next + run[1..] == past + run;
      GaugesShow(Next(s, run[0], window), next, run[1..], window);
    }
  }

  /** From the start: whichever tick's write came last, each gauge shows what that
      tick took out of the mutex. */
  lemma GaugesPublish(total: real, now: real, run: seq<Step>, window: real)
    requires window > 0.0 && ValidRun(Start(total, now), run, window)
    ensures var s, t := Run(Start(total, now), run, window), P.Tracker(0.0, total, None, 0.0, now);
            && s.tracker == P.Run(t, EventsOf(run), window)
            && s.snapshots == SnapshotsOf(t, run, window)
            && Shown(s, LastWritten(run, true), LastWritten(run, false))
  {
    TicksPublish(Start(total, now), run, window);
    GaugesShow(Start(total, now), [], run, window);
    assert [] + run == run;
    var snapshots := SnapshotsOf(Start(total, now).tracker, run, window);
    assert [] + snapshots == snapshots;
  }
}
