/** trackPool: a tick awaits two or three callbacks in turn and writes its gauges
    only when all have been read. Slow ticks overlap, interleaving at every
    await. */
module Pool {
  import opened Wrappers

  /** What a callback resolves to, as a number. */
  datatype Raw = NotANumber | Number(value: real) | PlusInfinity | MinusInfinity

  /** What a gauge can hold after Math.max(0, Math.trunc(Number(raw) || 0)). */
  datatype Reading = Finite(n: nat) | Infinite

  function Coerce(raw: Raw): (v: Reading)
    ensures v.Infinite? <==> raw.PlusInfinity?
    ensures raw.Number? && raw.value >= 0.0 ==> v.Finite? && v.n as real <= raw.value < v.n as real + 1.0
    ensures raw.NotANumber? || raw.MinusInfinity? || (raw.Number? && raw.value < 0.0) ==> v == Finite(0)
  {
    match raw
    case Number(value) => if value >= 0.0 then Finite(value.Floor) else Finite(0)
    case PlusInfinity => Infinite
    case _ => Finite(0)
  }

  // The gauges, in the order a tick reads and writes them.
  const ACTIVE: nat := 0
  const IDLE: nat := 1
  const WAITING: nat := 2

  /** How many callbacks a tick reads. */
  function Reads(hasWaiting: bool): nat { if hasWaiting then 3 else 2 }

  /** inflight: for each tick not finished, the values it has read so far. */
  datatype State = State(
    gauges: seq<Option<Reading>>,
    inflight: map<nat, seq<Reading>>,
    started: nat,
    committed: nat,
    errors: nat)

  const START := State([None, None, None], map[], 0, 0, 0)

  /** A tick starts, one of its callbacks resolves, or one rejects. */
  datatype Step = StartTick | Resolve(tick: nat, raw: Raw) | Reject(tick: nat)

  predicate Enabled(s: State, step: Step) {
    match step
    case StartTick => true
    case Resolve(tick, _) => tick in s.inflight
    case Reject(tick) => tick in s.inflight
  }

  /** The gauges with the first |values| of them overwritten. */
  function Written(gauges: seq<Option<Reading>>, values: seq<Reading>): (g: seq<Option<Reading>>)
    requires |values| <= |gauges|
    ensures |g| == |gauges|
    ensures forall k | 0 <= k < |g| :: g[k] == if k < |values| then Some(values[k]) else gauges[k]
  {
    seq(|gauges|, k requires 0 <= k < |gauges| => if k < |values| then Some(values[k]) else gauges[k])
  }

  /** No unfinished tick has read all its callbacks. */
  predicate Sound(s: State, hasWaiting: bool) {
    |s.gauges| == 3 && forall tick <- s.inflight :: |s.inflight[tick]| < Reads(hasWaiting)
  }

  function Next(s: State, step: Step, hasWaiting: bool): (s': State)
    requires Sound(s, hasWaiting) && Enabled(s, step)
    ensures Sound(s', hasWaiting)
  {
    match step
    case StartTick => s.(inflight := s.inflight[s.started := []], started := s.started + 1)
    case Resolve(tick, raw) =>
      var values := s.inflight[tick] + [Coerce(raw)];
      if |values| < Reads(hasWaiting) then s.(inflight := s.inflight[tick := values])
      else s.(inflight := s.inflight - {tick}, committed := s.committed + 1, gauges := Written(s.gauges, values))
    case Reject(tick) => s.(inflight := s.inflight - {tick}, errors := s.errors + 1)
  }

  class PoolTracker {
    const hasWaiting: bool
    var gauges: seq<Option<Reading>>
    var inflight: map<nat, seq<Reading>>
    var started: nat
    var committed: nat
    var errors: nat

    ghost function View(): State
      reads this
    {
      State(gauges, inflight, started, committed, errors)
    }

    ghost predicate Valid()
      reads this
    {
      Sound(View(), hasWaiting)
    }

    constructor (hasWaiting: bool)
      ensures Valid() && View() == START && this.hasWaiting == hasWaiting
    {
      this.hasWaiting := hasWaiting;
      gauges, inflight := [None, None, None], map[];
      started, committed, errors := 0, 0, 0;
    }

    method Begin() returns (tick: nat)
      requires Valid()
      modifies `inflight, `started
      ensures Valid() && tick == old(started) && View() == Next(old(View()), StartTick, hasWaiting)
    {
      tick := started;
      inflight := inflight[tick := []];
      started := started + 1;
    }

    /** The final loop of a tick, with nothing awaited in between. */
    method WriteAll(values: seq<Reading>)
      requires |values| <= |gauges| == 3
      modifies `gauges
      ensures gauges == Written(old(gauges), values)
    {
      var k := 0;
      while k < |values|
        invariant 0 <= k <= |values|
        invariant gauges == Written(old(gauges), values[..k])
      {
        gauges := gauges[k := Some(values[k])];
        k := k + 1;
      }
      assert values[..k] == values;
    }

    /** The tick resumes with the value of the callback it was awaiting. */
    method Resume(tick: nat, raw: Raw)
      requires Valid() && tick in inflight
      modifies `gauges, `inflight, `committed
      ensures Valid() && View() == Next(old(View()), Resolve(tick, raw), hasWaiting)
    {
      var values := inflight[tick] + [Coerce(raw)];
      if |values| < Reads(hasWaiting) {
        inflight := inflight[tick := values];
        return;
      }
      WriteAll(values);
      inflight := inflight - {tick};
      committed := committed + 1;
    }

    /** The callback it was awaiting failed: no gauge is touched. */
    method Fail(tick: nat)
      requires Valid() && tick in inflight
      modifies `inflight, `errors
      ensures Valid() && View() == Next(old(View()), Reject(tick), hasWaiting)
    {
      errors := errors + 1;
      inflight := inflight - {tick};
    }
  }

  // ---- Every interleaving of any number of ticks ----

  predicate ValidRun(s: State, run: seq<Step>, hasWaiting: bool)
    requires Sound(s, hasWaiting)
    decreases |run|
  {
    run == [] || (Enabled(s, run[0]) && ValidRun(Next(s, run[0], hasWaiting), run[1..], hasWaiting))
  }

  function Run(s: State, run: seq<Step>, hasWaiting: bool): State
    requires Sound(s, hasWaiting) && ValidRun(s, run, hasWaiting)
    decreases |run|
  {
    if run == [] then s else Run(Next(s, run[0], hasWaiting), run[1..], hasWaiting)
  }

  /** What a step adds to the values of a tick. */
  function ValueIn(step: Step, tick: nat): seq<Reading> {
    if step.Resolve? && step.tick == tick then [Coerce(step.raw)] else []
  }

  /** The values that the callbacks of one tick resolved to, in order. */
  function ValuesOf(run: seq<Step>, tick: nat): seq<Reading> {
    if run == [] then [] else ValuesOf(run[..|run| - 1], tick) + ValueIn(run[|run| - 1], tick)
  }

  lemma ValuesStep(run: seq<Step>, step: Step, tick: nat)
    ensures ValuesOf(run + [step], tick) == ValuesOf(run, tick) + ValueIn(step, tick)
  {
    assert (run + [step])[..|run|] == run;
  }

  /** The gauges show all the values of one tick and nothing else. */
  predicate Shows(gauges: seq<Option<Reading>>, values: seq<Reading>, hasWaiting: bool) {
    && |values| == Reads(hasWaiting)
    && gauges == [Some(values[ACTIVE]), Some(values[IDLE]), if hasWaiting then Some(values[WAITING]) else None]
  }

  /** The tick that was the last to read all its callbacks. */
  function LastDone(run: seq<Step>, hasWaiting: bool): Option<nat> {
    if run == [] then None
    else
      var last := run[|run| - 1];
      if last.Resolve? && |ValuesOf(run, last.tick)| == Reads(hasWaiting) then Some(last.tick)
      else LastDone(run[..|run| - 1], hasWaiting)
  }

  function Starts(run: seq<Step>): nat {
    if run == [] then 0 else Starts(run[..|run| - 1]) + if run[|run| - 1].StartTick? then 1 else 0
  }

  function Rejections(run: seq<Step>): nat {
    if run == [] then 0 else Rejections(run[..|run| - 1]) + if run[|run| - 1].Reject? then 1 else 0
  }

  /** How many ticks have read all their callbacks. */
  function Completions(run: seq<Step>, hasWaiting: bool): nat {
    if run == [] then 0
    else
      var last := run[|run| - 1];
      Completions(run[..|run| - 1], hasWaiting)
      + if last.Resolve? && |ValuesOf(run, last.tick)| == Reads(hasWaiting) then 1 else 0
  }

  /** The counters are what the run makes them, and no tick is lost. */
  ghost predicate Counted(s: State, run: seq<Step>, hasWaiting: bool) {
    && s.started == Starts(run) && s.errors == Rejections(run) && s.committed == Completions(run, hasWaiting)
    && s.started == s.committed + s.errors + |s.inflight|
  }

  /** Nothing is published before a tick is done; from then on, exactly the
      values of the last tick done. */
  ghost predicate Published(s: State, run: seq<Step>, hasWaiting: bool) {
    match LastDone(run, hasWaiting)
    case None => s.gauges == [None, None, None]
    case Some(tick) => tick < s.started && tick !in s.inflight && Shows(s.gauges, ValuesOf(run, tick), hasWaiting)
  }

  /** Every tick in flight has read what the run says. */
  ghost predicate Current(s: State, run: seq<Step>) {
    && (forall tick <- s.inflight :: tick < s.started && s.inflight[tick] == ValuesOf(run, tick))
    && (forall tick: nat :: tick >= s.started ==> ValuesOf(run, tick) == [])
  }

  ghost predicate Inv(s: State, run: seq<Step>, hasWaiting: bool) {
    && Sound(s, hasWaiting)
    && Current(s, run)
    && Counted(s, run, hasWaiting)
    && Published(s, run, hasWaiting)
  }

  lemma NextKeepsCurrent(s: State, run: seq<Step>, step: Step, hasWaiting: bool)
    requires Sound(s, hasWaiting) && Current(s, run) && Enabled(s, step)
    ensures Current(Next(s, step, hasWaiting), run + [step])
  {
    forall tick: nat ensures ValuesOf(run + [step], tick) == ValuesOf(run, tick) + ValueIn(step, tick) {
      ValuesStep(run, step, tick);
    }
  }

  lemma NextKeepsCounts(s: State, run: seq<Step>, step: Step, hasWaiting: bool)
    requires Sound(s, hasWaiting) && Current(s, run) && Enabled(s, step) && Counted(s, run, hasWaiting)
    ensures Counted(Next(s, step, hasWaiting), run + [step], hasWaiting)
  {
    assert (run + [step])[..|run|] == run;
    if step.Resolve? {
      ValuesStep(run, step, step.tick);
      var values := s.inflight[step.tick] + [Coerce(step.raw)];
      assert s.inflight[step.tick := values].Keys == s.inflight.Keys;
    }
  }

  lemma LastDoneStep(run: seq<Step>, step: Step, hasWaiting: bool)
    ensures LastDone(run + [step], hasWaiting) ==
            if step.Resolve? && |ValuesOf(run, step.tick)| + 1 == Reads(hasWaiting) then Some(step.tick)
            else LastDone(run, hasWaiting)
  {
    assert (run + [step])[..|run|] == run;
    if step.Resolve? { ValuesStep(run, step, step.tick); }
  }

  lemma WrittenShows(gauges: seq<Option<Reading>>, values: seq<Reading>, hasWaiting: bool)
    requires |gauges| == 3 && |values| == Reads(hasWaiting) && (!hasWaiting ==> gauges[WAITING] == None)
    ensures Shows(Written(gauges, values), values, hasWaiting)
  {
  }

  lemma CommitPublishes(s: State, run: seq<Step>, step: Step, hasWaiting: bool)
    requires Inv(s, run, hasWaiting) && step.Resolve? && step.tick in s.inflight
    requires |s.inflight[step.tick]| + 1 == Reads(hasWaiting)
    ensures var s' := Next(s, step, hasWaiting);
            step.tick !in s'.inflight && Shows(s'.gauges, ValuesOf(run + [step], step.tick), hasWaiting)
  {
    ValuesStep(run, step, step.tick);
    var values := s.inflight[step.tick] + [Coerce(step.raw)];
    assert ValuesOf(run + [step], step.tick) == values;
    if !hasWaiting { WaitingOnlyWhenAsked(s, run, hasWaiting); }
    WrittenShows(s.gauges, values, hasWaiting);
  }

  lemma NextKeepsPublished(s: State, run: seq<Step>, step: Step, hasWaiting: bool)
    requires Inv(s, run, hasWaiting) && Enabled(s, step)
    ensures Published(Next(s, step, hasWaiting), run + [step], hasWaiting)
  {
    LastDoneStep(run, step, hasWaiting);
    if step.Resolve? && |ValuesOf(run, step.tick)| + 1 == Reads(hasWaiting) {
      CommitPublishes(s, run, step, hasWaiting);
    } else if LastDone(run, hasWaiting).Some? {
      var tick := LastDone(run, hasWaiting).value;
      ValuesStep(run, step, tick);
      assert ValuesOf(run, tick) + [] == ValuesOf(run, tick);
    }
  }

  lemma WaitingOnlyWhenAsked(s: State, run: seq<Step>, hasWaiting: bool)
    requires Inv(s, run, hasWaiting) && !hasWaiting
    ensures s.gauges[WAITING] == None
  {
  }

  lemma NextKeepsInv(s: State, run: seq<Step>, step: Step, hasWaiting: bool)
    requires Inv(s, run, hasWaiting) && Enabled(s, step)
    ensures Inv(Next(s, step, hasWaiting), run + [step], hasWaiting)
  {
    NextKeepsCurrent(s, run, step, hasWaiting);
    NextKeepsCounts(s, run, step, hasWaiting);
    NextKeepsPublished(s, run, step, hasWaiting);
  }

  lemma {:induction false} InvAlways(s: State, past: seq<Step>, run: seq<Step>, hasWaiting: bool)
    requires Inv(s, past, hasWaiting) && ValidRun(s, run, hasWaiting)
    ensures Inv(Run(s, run, hasWaiting), past + run, hasWaiting)
    decreases |run|
  {
    if run == [] {
      assert past + run == past;
    } else {
      var next := past + [run[0]];
      assert next + run[1..] == past + run;
      NextKeepsInv(s, past, run[0], hasWaiting);
      InvAlways(Next(s, run[0], hasWaiting), next, run[1..], hasWaiting);
    }
  }

  /** However ticks overlap, the published gauges are all absent, or all read by
      one and the same tick, the last to have read everything; and every tick
      started has read everything, failed with one error counted, or is in flight. */
  lemma SnapshotAtomic(run: seq<Step>, hasWaiting: bool)
    requires ValidRun(START, run, hasWaiting)
    ensures var s := Run(START, run, hasWaiting);
            && (LastDone(run, hasWaiting) == None ==> s.gauges == [None, None, None])
            && (LastDone(run, hasWaiting).Some? ==>
                  Shows(s.gauges, ValuesOf(run, LastDone(run, hasWaiting).value), hasWaiting))
            && s.errors == Rejections(run)
            && Starts(run) == Completions(run, hasWaiting) + Rejections(run) + |s.inflight|
  {
    InvAlways(START, [], run, hasWaiting);
    assert [] + run == run;
  }
}
