/** The progress tracker: an exponentially weighted rate over irregular ticks,
    and a completion time extrapolated from it. Times are in seconds; numbers
    are exact reals. */
module Progress {
  import opened Wrappers

  /** The tracker's own variables. */
  datatype Tracker = Tracker(
    processed: real,
    total: real,
    rate: Option<real>,
    lastProcessed: real,
    lastTick: real)

  /** The exported series. */
  datatype Gauges = Gauges(remaining: real, rate: real, eta: real, processedTotal: real)

  /** window: the smoothing window, always positive. */
  function Alpha(elapsed: real, window: real): real
    requires window > 0.0
  {
    if elapsed / window < 1.0 then elapsed / window else 1.0
  }

  function NextRate(rate: Option<real>, instant: real, alpha: real): real {
    if rate.None? then instant else alpha * instant + (1.0 - alpha) * rate.value
  }

  function Ticked(t: Tracker, now: real, window: real): Tracker
    requires window > 0.0
  {
    var elapsed := now - t.lastTick;
    var rate := if elapsed > 0.0
                then Some(NextRate(t.rate, (t.processed - t.lastProcessed) / elapsed, Alpha(elapsed, window)))
                else t.rate;
    t.(rate := rate, lastProcessed := t.processed, lastTick := now)
  }

  function Remaining(t: Tracker): real {
    if t.total - t.processed > 0.0 then t.total - t.processed else 0.0
  }

  /** The completion time published at wall-clock time wall. */
  function Eta(t: Tracker, wall: real): real {
    var rate := t.rate.GetOr(0.0);
    if rate > 0.0 && Remaining(t) > 0.0 then wall + Remaining(t) / rate else 0.0
  }

  /** What is rejected with an error. */
  datatype Outcome = Accepted | Rejected

  class ProgressTracker {
    const window: real
    var processed: real
    var total: real
    var rateEwma: Option<real>
    var lastProcessed: real
    var lastTick: real
    var stopped: bool
    var gauges: Gauges

    ghost predicate Valid()
      reads this
    {
      window > 0.0 && total >= 0.0
    }

    ghost function View(): Tracker
      reads this
    {
      Tracker(processed, total, rateEwma, lastProcessed, lastTick)
    }

    constructor (total: real, window: real, now: real)
      requires total >= 0.0 && window > 0.0
      ensures Valid() && this.window == window && !stopped
      ensures View() == Tracker(0.0, total, None, 0.0, now) && gauges == Gauges(total, 0.0, 0.0, 0.0)
    {
      this.window, this.total := window, total;
      processed, rateEwma, lastProcessed, lastTick, stopped := 0.0, None, 0.0, now, false;
      gauges := Gauges(total, 0.0, 0.0, 0.0);
    }

    /** The first half of a tick: the smoothed rate. */
    method UpdateRate(now: real)
      requires Valid()
      modifies `rateEwma, `lastProcessed, `lastTick
      ensures View() == Ticked(old(View()), now, window)
    {
      var elapsed := now - lastTick;
      if elapsed > 0.0 {
        var instant := (processed - lastProcessed) / elapsed;
        rateEwma := Some(NextRate(rateEwma, instant, Alpha(elapsed, window)));
      }
      lastProcessed := processed;
      lastTick := now;
    }

    /** The second half: the gauges. */
    method Publish(wall: real)
      modifies `gauges
      ensures gauges == Gauges(Remaining(View()), rateEwma.GetOr(0.0), Eta(View(), wall), old(gauges).processedTotal)
    {
      var remaining := if total - processed > 0.0 then total - processed else 0.0;
      var rate := rateEwma.GetOr(0.0);
      var eta := 0.0;
      if rate > 0.0 && remaining > 0.0 {
        eta := wall + remaining / rate;
      }
      gauges := gauges.(remaining := remaining, rate := rate, eta := eta);
    }

    method Tick(now: real, wall: real)
      requires Valid()
      modifies `rateEwma, `lastProcessed, `lastTick, `gauges
      ensures View() == Next(old(View()), TickAt(now, wall), window)
      ensures gauges == Gauges(Remaining(View()), rateEwma.GetOr(0.0), Eta(View(), wall), old(gauges).processedTotal)
    {
      UpdateRate(now);
      Publish(wall);
    }

    method Inc(n: real) returns (outcome: Outcome)
      modifies `processed, `gauges
      ensures outcome.Rejected? <==> n < 0.0
      ensures processed == old(processed) + if n < 0.0 then 0.0 else n
      ensures outcome.Accepted? && window > 0.0 ==> View() == Next(old(View()), Event.Inc(n), window)
      ensures gauges == old(gauges).(processedTotal := old(gauges).processedTotal + if n < 0.0 then 0.0 else n)
    {
      if n < 0.0 { return Rejected; }
      if n == 0.0 { return Accepted; }
      processed := processed + n;
      gauges := gauges.(processedTotal := gauges.processedTotal + n);
      return Accepted;
    }

    method SetTotal(newTotal: real) returns (outcome: Outcome)
      requires Valid()
      modifies `total
      ensures Valid() && (outcome.Rejected? <==> newTotal < 0.0)
      ensures total == if newTotal < 0.0 then old(total) else newTotal
      ensures outcome.Accepted? ==> View() == Next(old(View()), Event.SetTotal(newTotal), window)
    {
      if newTotal < 0.0 { return Rejected; }
      total := newTotal;
      return Accepted;
    }

    /** Stops once, with a final tick; later calls do nothing. */
    method Stop(now: real, wall: real)
      requires Valid()
      modifies `stopped, `rateEwma, `lastProcessed, `lastTick, `gauges
      ensures stopped
      ensures old(stopped) ==> View() == old(View()) && gauges == old(gauges)
      ensures !old(stopped) ==>
                && View() == Ticked(old(View()), now, window)
                && gauges == Gauges(Remaining(View()), rateEwma.GetOr(0.0), Eta(View(), wall),
                                    old(gauges).processedTotal)
    {
      if stopped { return; }
      stopped := true;
      Tick(now, wall);
    }
  }

  // ---- Runs ----

  /** An accepted call, or a tick at monotonic time now and wall-clock time wall.
      Nothing is assumed about the times. */
  datatype Event = Inc(n: real) | SetTotal(total: real) | TickAt(now: real, wall: real)

  predicate Accepts(e: Event) {
    (e.Inc? ==> e.n >= 0.0) && (e.SetTotal? ==> e.total >= 0.0)
  }

  function Next(t: Tracker, e: Event, window: real): Tracker
    requires window > 0.0
  {
    match e
    case Inc(n) => t.(processed := t.processed + n)
    case SetTotal(total) => t.(total := total)
    case TickAt(now, _) => Ticked(t, now, window)
  }

  function Run(t: Tracker, events: seq<Event>, window: real): Tracker
    requires window > 0.0
    decreases |events|
  {
    if events == [] then t else Run(Next(t, events[0], window), events[1..], window)
  }

  function Amounts(events: seq<Event>): real {
    if events == [] then 0.0 else (if events[0].Inc? then events[0].n else 0.0) + Amounts(events[1..])
  }

  function LastTotal(total: real, events: seq<Event>): real
    decreases |events|
  {
    if events == [] then total
    else LastTotal(if events[0].SetTotal? then events[0].total else total, events[1..])
  }

  /** Ticks never touch the work: it is what was started with and every amount
      added since, out of the last total set. */
  lemma {:induction false} WorkIsCounted(t: Tracker, events: seq<Event>, window: real)
    requires window > 0.0
    ensures Run(t, events, window).processed == t.processed + Amounts(events)
    ensures Run(t, events, window).total == LastTotal(t.total, events)
    decreases |events|
  {
    if events != [] { WorkIsCounted(Next(t, events[0], window), events[1..], window); }
  }

  /** One effective tick: the rate seen in it, and its weight. */
  datatype Sample = Sample(instant: real, elapsed: real, alpha: real)

  /** The sample a step adds: only ticks with positive elapsed time add one. */
  function SampleOf(t: Tracker, e: Event, window: real): seq<Sample>
    requires window > 0.0
  {
    match e
    case TickAt(now, _) =>
      var elapsed := now - t.lastTick;
      if elapsed > 0.0 then [Sample((t.processed - t.lastProcessed) / elapsed, elapsed, Alpha(elapsed, window))] else []
    case _ => []
  }

  function History(t: Tracker, events: seq<Event>, window: real): seq<Sample>
    requires window > 0.0
    decreases |events|
  {
    if events == [] then []
    else SampleOf(t, events[0], window) + History(Next(t, events[0], window), events[1..], window)
  }

  /** The smoothing factor is the share of the window that has elapsed, and 1
      exactly when a whole window has. */
  lemma AlphaExactly(elapsed: real, window: real)
    requires window > 0.0 && elapsed > 0.0
    ensures Alpha(elapsed, window) * window == if elapsed < window then elapsed else window
    ensures Alpha(elapsed, window) == 1.0 <==> elapsed >= window
  {
    Quotient(elapsed / window, elapsed, window);
  }

  lemma Quotient(q: real, x: real, y: real)
    requires y > 0.0 && q == x / y
    ensures q * y == x && (q < 1.0 <==> x < y)
  {
    assert q * y == x;
    assert (q - 1.0) * y == x - y;
  }

  predicate ProperWeight(s: Sample) { 0.0 < s.alpha <= 1.0 }

  lemma SampleProper(t: Tracker, e: Event, window: real)
    requires window > 0.0
    ensures forall s <- SampleOf(t, e, window) :: ProperWeight(s) && s.elapsed > 0.0
    ensures Accepts(e) && t.lastProcessed <= t.processed ==> forall s <- SampleOf(t, e, window) :: s.instant >= 0.0
  {
    if e.TickAt? {
      var elapsed := e.now - t.lastTick;
      if elapsed > 0.0 {
        assert elapsed / window > 0.0;
        if t.lastProcessed <= t.processed { assert (t.processed - t.lastProcessed) / elapsed >= 0.0; }
      }
    }
  }

  /** The rate after a history. */
  function Folded(rate: Option<real>, history: seq<Sample>): Option<real>
    decreases |history|
  {
    if history == [] then rate
    else Folded(Some(NextRate(rate, history[0].instant, history[0].alpha)), history[1..])
  }

  /** The tracker's rate is the fold of its history. */
  lemma {:induction false} RateIsFolded(t: Tracker, events: seq<Event>, window: real)
    requires window > 0.0
    ensures Run(t, events, window).rate == Folded(t.rate, History(t, events, window))
    decreases |events|
  {
    if events != [] {
      var t' := Next(t, events[0], window);
      RateIsFolded(t', events[1..], window);
      var s, rest := SampleOf(t, events[0], window), History(t', events[1..], window);
      if s == [] {
        assert s + rest == rest;
      } else {
        assert (s + rest)[1..] == rest;
      }
    }
  }

  lemma {:induction false} HistoryProper(t: Tracker, events: seq<Event>, window: real)
    requires window > 0.0
    ensures forall s <- History(t, events, window) :: ProperWeight(s)
    ensures (forall e <- events :: Accepts(e)) && t.lastProcessed <= t.processed ==>
              && (forall s <- History(t, events, window) :: s.instant >= 0.0)
              && Run(t, events, window).lastProcessed <= Run(t, events, window).processed
    decreases |events|
  {
    if events != [] {
      SampleProper(t, events[0], window);
      HistoryProper(Next(t, events[0], window), events[1..], window);
    }
  }

  // ---- The rate is a weighted average ----

  /** How much of an earlier rate survives a history: the product of (1 - alpha). */
  function Keep(history: seq<Sample>): real {
    if history == [] then 1.0 else (1.0 - history[0].alpha) * Keep(history[1..])
  }

  /** The weight of each sample: its alpha, times what survives the later ones. */
  function Weights(history: seq<Sample>): (w: seq<real>)
    ensures |w| == |history|
  {
    if history == [] then [] else [Keep(history[1..]) * history[0].alpha] + Weights(history[1..])
  }

  /** The weights for a tracker that starts without a rate: the first sample is
      taken whole. */
  function FirstWeights(history: seq<Sample>): (w: seq<real>)
    requires history != []
    ensures |w| == |history|
  {
    [Keep(history[1..])] + Weights(history[1..])
  }

  function Sum(w: seq<real>): real {
    if w == [] then 0.0 else w[0] + Sum(w[1..])
  }

  function Dot(w: seq<real>, history: seq<Sample>): real
    requires |w| == |history|
  {
    if w == [] then 0.0 else w[0] * history[0].instant + Dot(w[1..], history[1..])
  }

  predicate NonNegative(w: seq<real>) {
    forall i | 0 <= i < |w| :: w[i] >= 0.0
  }

  /** One fold step inside the closed form: n is the blended rate, w its sample's
      weight and kept what survives of x. */
  lemma Blend(k: real, a: real, i: real, x: real, n: real, w: real, kept: real)
    requires n == a * i + (1.0 - a) * x && w == k * a && kept == (1.0 - a) * k
    ensures k * n == kept * x + w * i
  {
    calc {
      k * n;
      k * (a * i + (1.0 - a) * x);
      ((1.0 - a) * k) * x + (k * a) * i;
      kept * x + w * i;
    }
  }

  lemma {:induction false} FoldedSome(x: real, history: seq<Sample>)
    ensures var rate := Folded(Some(x), history);
            rate.Some? && rate.value == Keep(history) * x + Dot(Weights(history), history)
    decreases |history|
  {
    if history == [] {
      assert Keep(history) * x == x;
    } else {
      var s, rest := history[0], history[1..];
      var next := NextRate(Some(x), s.instant, s.alpha);
      FoldedSome(next, rest);
      DotCons(Keep(rest) * s.alpha, Weights(rest), s, rest);
      assert [s] + rest == history;
      Blend(Keep(rest), s.alpha, s.instant, x, next, Weights(history)[0], Keep(history));
      assert Folded(Some(x), history) == Folded(Some(next), rest);
    }
  }

  lemma DotCons(w: real, ws: seq<real>, s: Sample, history: seq<Sample>)
    requires |ws| == |history|
    ensures Dot([w] + ws, [s] + history) == w * s.instant + Dot(ws, history)
  {
    assert ([w] + ws)[1..] == ws && ([s] + history)[1..] == history;
  }

  lemma {:induction false} WeightsSum(history: seq<Sample>)
    requires forall s <- history :: ProperWeight(s)
    ensures NonNegative(Weights(history)) && Sum(Weights(history)) + Keep(history) == 1.0 && Keep(history) >= 0.0
  {
    if history != [] {
      var s, rest := history[0], history[1..];
      assert s in history;
      WeightsSum(rest);
      assert Weights(history)[1..] == Weights(rest);
      WeightStep(Keep(rest), s.alpha);
    }
  }

  lemma WeightStep(k: real, a: real)
    requires k >= 0.0 && 0.0 < a <= 1.0
    ensures k * a >= 0.0 && (1.0 - a) * k >= 0.0 && k * a + (1.0 - a) * k == k
  {
  }

  /** The folded rate of a tracker that starts without one is the average of the
      instantaneous rates under weights that are not negative and sum to one. */
  lemma FoldedIsAverage(history: seq<Sample>)
    requires history != [] && forall s <- history :: ProperWeight(s)
    ensures var w := FirstWeights(history);
            && NonNegative(w) && Sum(w) == 1.0
            && Folded(None, history).Some? && Folded(None, history).value == Dot(w, history)
  {
    WeightsSum(history[1..]);
    var s, rest := history[0], history[1..];
    FoldedSome(s.instant, rest);
    DotCons(Keep(rest), Weights(rest), s, rest);
    assert [s] + rest == history;
    assert NextRate(None, s.instant, s.alpha) == s.instant;
  }

  lemma WeightedBounds(w: real, x: real, lo: real, hi: real)
    requires w >= 0.0 && lo <= x <= hi
    ensures w * lo <= w * x <= w * hi
  {
    assert w * (x - lo) >= 0.0 && w * (hi - x) >= 0.0;
  }

  lemma Distribute(sum: real, a: real, b: real, c: real)
    requires sum == a + b
    ensures sum * c == a * c + b * c
  {
  }

  lemma {:induction false} DotBounded(w: seq<real>, history: seq<Sample>, lo: real, hi: real)
    requires |w| == |history| && NonNegative(w)
    requires forall s <- history :: lo <= s.instant <= hi
    ensures Sum(w) * lo <= Dot(w, history) <= Sum(w) * hi
  {
    if w == [] {
      assert 0.0 * lo == 0.0 && 0.0 * hi == 0.0;
    } else {
      DotBounded(w[1..], history[1..], lo, hi);
      assert history[0] in history;
      BoundsStep(w[0], history[0].instant, Sum(w[1..]), Dot(w[1..], history[1..]), lo, hi, Sum(w), Dot(w, history));
    }
  }

  lemma BoundsStep(w: real, x: real, sum: real, dot: real, lo: real, hi: real, sum': real, dot': real)
    requires w >= 0.0 && lo <= x <= hi && sum * lo <= dot <= sum * hi
    requires sum' == w + sum && dot' == w * x + dot
    ensures sum' * lo <= dot' <= sum' * hi
  {
    WeightedBounds(w, x, lo, hi);
    Distribute(sum', w, sum, lo);
    Distribute(sum', w, sum, hi);
  }

  /** rate is the average of the history's instantaneous rates under weights that
      are not negative and sum to one. */
  predicate IsAverage(rate: Option<real>, history: seq<Sample>)
    requires history != []
  {
    var w := FirstWeights(history);
    NonNegative(w) && Sum(w) == 1.0 && rate.Some? && rate.value == Dot(w, history)
  }

  /** Over any run, whatever the tick times, the rate a new tracker publishes is
      a convex combination of the instantaneous rates it has seen. */
  lemma RateIsConvex(t: Tracker, events: seq<Event>, window: real)
    requires window > 0.0 && t.rate == None
    ensures var history := History(t, events, window);
            if history == [] then Run(t, events, window).rate == None
            else IsAverage(Run(t, events, window).rate, history)
  {
    RateIsFolded(t, events, window);
    HistoryProper(t, events, window);
    if History(t, events, window) != [] {
      FoldedIsAverage(History(t, events, window));
    }
  }

  /** So it lies between their least and their greatest. */
  lemma RateBetween(t: Tracker, events: seq<Event>, window: real, lo: real, hi: real)
    requires window > 0.0 && t.rate == None
    requires forall s <- History(t, events, window) :: lo <= s.instant <= hi
    ensures var rate := Run(t, events, window).rate; rate.Some? ==> lo <= rate.value <= hi
  {
    var history := History(t, events, window);
    RateIsConvex(t, events, window);
    if history != [] {
      DotBounded(FirstWeights(history), history, lo, hi);
    }
  }

  lemma {:induction false} DotNonNegative(w: seq<real>, history: seq<Sample>)
    requires |w| == |history| && NonNegative(w) && forall s <- history :: s.instant >= 0.0
    ensures Dot(w, history) >= 0.0
  {
    if w != [] {
      DotNonNegative(w[1..], history[1..]);
      assert history[0] in history;
      assert w[0] * history[0].instant >= 0.0;
    }
  }

  /** When only non-negative amounts are accepted, the rate is never negative and
      no tick has seen more work than was done. */
  lemma RateNonNegative(t: Tracker, events: seq<Event>, window: real)
    requires window > 0.0 && t.rate == None && t.lastProcessed <= t.processed
    requires forall e <- events :: Accepts(e)
    ensures Run(t, events, window).rate.GetOr(0.0) >= 0.0
    ensures Run(t, events, window).lastProcessed <= Run(t, events, window).processed
  {
    var history := History(t, events, window);
    RateIsFolded(t, events, window);
    HistoryProper(t, events, window);
    if history != [] {
      FoldedIsAverage(history);
      DotNonNegative(FirstWeights(history), history);
    }
  }

  // ---- Work conservation ----

  function Work(history: seq<Sample>): real {
    if history == [] then 0.0 else history[0].instant * history[0].elapsed + Work(history[1..])
  }

  /** Items that ticks without positive elapsed time take off the books. */
  function Absorbed(t: Tracker, events: seq<Event>, window: real): real
    requires window > 0.0
    decreases |events|
  {
    if events == [] then 0.0
    else AbsorbedBy(t, events[0]) + Absorbed(Next(t, events[0], window), events[1..], window)
  }

  lemma {:induction false} WorkAppend(a: seq<Sample>, b: seq<Sample>)
    ensures Work(a + b) == Work(a) + Work(b)
  {
    if a == [] {
      assert a + b == b;
    } else {
      assert (a + b)[1..] == a[1..] + b;
      WorkAppend(a[1..], b);
    }
  }

  lemma OneSample(s: Sample)
    ensures Work([s]) == s.instant * s.elapsed
  {
    assert [s][1..] == [];
  }

  /** What one step takes off the books without counting it. */
  function AbsorbedBy(t: Tracker, e: Event): real {
    if e.TickAt? && e.now <= t.lastTick then t.processed - t.lastProcessed else 0.0
  }

  lemma WorkStep(t: Tracker, e: Event, window: real)
    requires window > 0.0
    ensures Work(SampleOf(t, e, window)) == Next(t, e, window).lastProcessed - t.lastProcessed - AbsorbedBy(t, e)
  {
    if e.TickAt? && e.now > t.lastTick {
      OneSample(SampleOf(t, e, window)[0]);
    }
  }

  /** Rate times elapsed time, summed over the effective ticks, is the work
      between the first and the last tick, less what idle-time ticks absorbed. */
  lemma {:induction false} WorkConserved(t: Tracker, events: seq<Event>, window: real)
    requires window > 0.0
    ensures Work(History(t, events, window)) ==
            Run(t, events, window).lastProcessed - t.lastProcessed - Absorbed(t, events, window)
    decreases |events|
  {
    if events != [] {
      var t' := Next(t, events[0], window);
      WorkStep(t, events[0], window);
      WorkConserved(t', events[1..], window);
      WorkAppend(SampleOf(t, events[0], window), History(t', events[1..], window));
    }
  }

  // ---- Idle ticks ----

  lemma {:induction false} IdleDot(w: seq<real>, history: seq<Sample>)
    requires |w| == |history| && forall s <- history :: s.instant == 0.0
    ensures Dot(w, history) == 0.0
  {
    if w != [] {
      assert history[0] in history;
      IdleDot(w[1..], history[1..]);
      assert w[0] * 0.0 == 0.0;
    }
  }

  lemma {:induction false} IdleHistory(t: Tracker, events: seq<Event>, window: real)
    requires window > 0.0 && t.lastProcessed == t.processed && forall e <- events :: !e.Inc?
    ensures forall s <- History(t, events, window) :: s.instant == 0.0
    decreases |events|
  {
    if events != [] {
      IdleHistory(Next(t, events[0], window), events[1..], window);
    }
  }

  lemma FoldedIdle(rate: Option<real>, history: seq<Sample>)
    requires rate.Some? && forall s <- history :: s.instant == 0.0
    ensures Folded(rate, history).Some? && Folded(rate, history).value == Keep(history) * rate.value
  {
    FoldedSome(rate.value, history);
    IdleDot(Weights(history), history);
  }

  /** Ticks without work scale the rate by exactly the product of (1 - alpha). */
  lemma IdleTicksDecay(t: Tracker, events: seq<Event>, window: real)
    requires window > 0.0 && t.rate.Some? && t.lastProcessed == t.processed && forall e <- events :: !e.Inc?
    ensures var rate := Run(t, events, window).rate;
            rate.Some? && rate.value == Keep(History(t, events, window)) * t.rate.value
  {
    RateIsFolded(t, events, window);
    IdleHistory(t, events, window);
    FoldedIdle(t.rate, History(t, events, window));
  }

  // ---- The completion time ----

  /** The completion times published by the ticks of a run. */
  function Etas(t: Tracker, events: seq<Event>, window: real): seq<real>
    requires window > 0.0
    decreases |events|
  {
    if events == [] then []
    else
      var t' := Next(t, events[0], window);
      (if events[0].TickAt? then [Eta(t', events[0].wall)] else []) + Etas(t', events[1..], window)
  }

  /** Some tick of the history spanned a whole window. */
  ghost predicate WholeWindow(history: seq<Sample>) {
    exists s <- history :: s.alpha == 1.0
  }

  /** Whatever work the ticks saw, a later one that spanned a whole window has
      made the rate forget it. */
  ghost predicate Forgotten(history: seq<Sample>) {
    history == []
    || ((history[0].instant == 0.0 || WholeWindow(history[1..])) && Forgotten(history[1..]))
  }

  lemma NextRateZeroExactly(x: real, instant: real, alpha: real)
    requires x >= 0.0 && instant >= 0.0 && 0.0 < alpha <= 1.0
    ensures NextRate(Some(x), instant, alpha) >= 0.0
    ensures NextRate(Some(x), instant, alpha) == 0.0 <==> instant == 0.0 && (x == 0.0 || alpha == 1.0)
  {
    assert alpha * instant >= 0.0 && (1.0 - alpha) * x >= 0.0;
    assert alpha * instant == 0.0 <==> instant == 0.0;
    assert (1.0 - alpha) * x == 0.0 <==> x == 0.0 || alpha == 1.0;
  }

  lemma {:induction false} FoldedZeroExactly(x: real, history: seq<Sample>)
    requires x >= 0.0 && forall s <- history :: ProperWeight(s) && s.instant >= 0.0
    ensures var rate := Folded(Some(x), history);
            && rate.Some? && rate.value >= 0.0
            && (rate.value == 0.0 <==> Forgotten(history) && (x == 0.0 || WholeWindow(history)))
    decreases |history|
  {
    if history != [] {
      var s, rest := history[0], history[1..];
      assert s in history;
      NextRateZeroExactly(x, s.instant, s.alpha);
      FoldedZeroExactly(NextRate(Some(x), s.instant, s.alpha), rest);
      assert WholeWindow(history) <==> s.alpha == 1.0 || WholeWindow(rest);
    }
  }

  /** A new tracker's rate is 0 exactly when all work seen has been forgotten. */
  lemma RateZeroExactly(t: Tracker, events: seq<Event>, window: real)
    requires window > 0.0 && t.rate == None && t.lastProcessed <= t.processed
    requires forall e <- events :: Accepts(e)
    ensures var rate := Run(t, events, window).rate.GetOr(0.0);
            rate >= 0.0 && (rate == 0.0 <==> Forgotten(History(t, events, window)))
  {
    var history := History(t, events, window);
    RateIsFolded(t, events, window);
    HistoryProper(t, events, window);
    if history != [] {
      assert history[0] in history;
      FoldedZeroExactly(history[0].instant, history[1..]);
    }
  }

  lemma {:induction false} EtasSnoc(t: Tracker, events: seq<Event>, now: real, wall: real, window: real)
    requires window > 0.0
    ensures Etas(t, events + [TickAt(now, wall)], window) ==
            Etas(t, events, window) + [Eta(Run(t, events + [TickAt(now, wall)], window), wall)]
    decreases |events|
  {
    var all := events + [TickAt(now, wall)];
    if events == [] {
      assert all == [TickAt(now, wall)] && all[1..] == [];
    } else {
      assert all[1..] == events[1..] + [TickAt(now, wall)];
      EtasSnoc(Next(t, events[0], window), events[1..], now, wall, window);
    }
  }

  lemma QuotientPositive(x: real, y: real)
    requires x > 0.0 && y > 0.0
    ensures x / y > 0.0
  {
  }

  /** Over any run of a new tracker that rejects negative amounts, the completion
      time its last tick publishes is 0 exactly when all the work is done or
      the rate has forgotten what was seen of it. */
  lemma EtaZeroExactly(t: Tracker, events: seq<Event>, now: real, wall: real, window: real)
    requires window > 0.0 && wall >= 0.0 && t.rate == None && t.lastProcessed <= t.processed
    requires forall e <- events :: Accepts(e)
    ensures var all := events + [TickAt(now, wall)];
            var etas, end := Etas(t, all, window), Run(t, all, window);
            && |etas| == |Etas(t, events, window)| + 1
            && (etas[|etas| - 1] == 0.0 <==>
                  end.processed >= end.total || Forgotten(History(t, all, window)))
  {
    var all := events + [TickAt(now, wall)];
    var end := Run(t, all, window);
    EtasSnoc(t, events, now, wall, window);
    RateZeroExactly(t, all, window);
    var rate := end.rate.GetOr(0.0);
    if rate > 0.0 && Remaining(end) > 0.0 { QuotientPositive(Remaining(end), rate); }
  }

  /** Every tick sees r items a second since start, and wall clock and monotonic
      clock run offset apart; the total is not changed. */
  predicate Constant(t: Tracker, events: seq<Event>, window: real, r: real, start: real, offset: real)
    requires window > 0.0
    decreases |events|
  {
    events == [] ||
    (&& !events[0].SetTotal?
     && (events[0].TickAt? ==> t.processed == r * (events[0].now - start) && events[0].wall == events[0].now + offset)
     && Constant(Next(t, events[0], window), events[1..], window, r, start, offset))
  }

  ghost predicate OnCourse(t: Tracker, r: real, start: real) {
    t.lastProcessed == r * (t.lastTick - start) && (t.rate.Some? ==> t.rate.value == r)
  }

  lemma TickStaysOnCourse(t: Tracker, now: real, window: real, r: real, start: real)
    requires window > 0.0 && OnCourse(t, r, start) && t.processed == r * (now - start)
    ensures OnCourse(Ticked(t, now, window), r, start)
  {
    var elapsed := now - t.lastTick;
    if elapsed > 0.0 {
      assert t.processed - t.lastProcessed == r * elapsed;
      assert r * elapsed / elapsed == r;
      var a := Alpha(elapsed, window);
      assert a * r + (1.0 - a) * r == r;
    }
  }

  lemma EtaOnCourse(t: Tracker, now: real, r: real, start: real, offset: real)
    requires r > 0.0 && OnCourse(t, r, start) && t.processed == r * (now - start)
    ensures Eta(t, now + offset) != 0.0 ==> Eta(t, now + offset) == start + offset + t.total / r
  {
    if Eta(t, now + offset) != 0.0 {
      calc {
        Remaining(t) / r;
        (t.total - r * (now - start)) / r;
        t.total / r - r * (now - start) / r;
        { assert r * (now - start) / r == now - start; }
        t.total / r - (now - start);
      }
    }
  }

  /** At constant throughput every completion time published is exact, from the
      first one on and whatever the tick times: start plus total / r. */
  lemma {:induction false} EtaExact(t: Tracker, events: seq<Event>, window: real, r: real, start: real, offset: real)
    requires window > 0.0 && r > 0.0 && OnCourse(t, r, start) && Constant(t, events, window, r, start, offset)
    ensures forall eta <- Etas(t, events, window) :: eta == 0.0 || eta == start + offset + t.total / r
    decreases |events|
  {
    if events != [] {
      var t' := Next(t, events[0], window);
      if events[0].TickAt? {
        TickStaysOnCourse(t, events[0].now, window, r, start);
        EtaOnCourse(t', events[0].now, r, start, offset);
      }
      EtaExact(t', events[1..], window, r, start, offset);
    }
  }

  /** In particular for a tracker created at start. */
  lemma EtaExactFromStart(total: real, events: seq<Event>, window: real, r: real, start: real, offset: real)
    requires window > 0.0 && r > 0.0
    requires Constant(Tracker(0.0, total, None, 0.0, start), events, window, r, start, offset)
    ensures forall eta <- Etas(Tracker(0.0, total, None, 0.0, start), events, window) ::
              eta == 0.0 || eta == start + offset + total / r
  {
    EtaExact(Tracker(0.0, total, None, 0.0, start), events, window, r, start, offset);
  }
}
