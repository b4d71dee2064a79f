/** Per-model circuit breakers and their measurement windows (internal/modelproxy/proxy.go).
    A Cell pairs one model's CircuitBreakerState with its ModelMetrics: both are created
    together, under the same key, and are only ever reached through that key. */
module Breakers {

  const SECOND: int := 1_000_000_000

  /** circuitBreakerCooldown, in nanoseconds. */
  const COOLDOWN: int := 300 * SECOND

  datatype BreakerState = Closed | Open | HalfOpen

  datatype Breaker = Breaker(state: BreakerState, lastChange: int)

  datatype Metrics = Metrics(requests: nat, errors: nat, latency: nat, tokens: int, consecutive: nat)

  datatype Cell = Cell(breaker: Breaker, metrics: Metrics)

  /** One recorded request outcome. */
  datatype Outcome = Outcome(latency: nat, tokens: int, failed: bool)

  const FRESH: Metrics := Metrics(0, 0, 0, 0, 0)

  /** A cell as initStrategies creates it. */
  function NewCell(now: int): Cell {
    Cell(Breaker(Closed, now), FRESH)
  }

  /** What one locked section does to a cell. */
  datatype CellOp =
    | Probe            // breakerStateForRoutingLocked
    | Record(o: Outcome)
    | Check            // checkCircuitBreaker
    | Force            // forwardChat forces the breaker open before re-routing

  predicate Cooled(b: Breaker, now: int) {
    now - b.lastChange > COOLDOWN
  }

  function ProbeCell(c: Cell, now: int): Cell {
    if c.breaker.state.Open? && Cooled(c.breaker, now) then Cell(Breaker(HalfOpen, now), FRESH) else c
  }

  function RecordMetrics(m: Metrics, o: Outcome): Metrics {
    Metrics(m.requests + 1,
            if o.failed then m.errors + 1 else m.errors,
            m.latency + o.latency,
            m.tokens + o.tokens,
            if o.failed then m.consecutive + 1 else 0)
  }

  /** Error rate above 20%, in exact arithmetic. */
  predicate HighErrorRate(m: Metrics) {
    m.requests > 10 && 5 * m.errors > m.requests
  }

  predicate Slow(m: Metrics) {
    m.requests > 5 && m.latency / m.requests > 30 * SECOND
  }

  /** Fewer than ten tokens a second; no time at all counts as infinitely fast. */
  predicate LowThroughput(m: Metrics) {
    m.requests > 5 && m.tokens > 0 && m.tokens * SECOND < 10 * m.latency
  }

  function Trip(b: Breaker, now: int): Breaker {
    if b.state.Closed? then Breaker(Open, now) else b
  }

  function CheckCell(c: Cell, now: int): Cell {
    var m := c.metrics;
    if c.breaker.state.HalfOpen? then
      if m.consecutive == 0 && m.requests > 0 then c.(breaker := Breaker(Closed, now))
      else if m.consecutive >= 3 then c.(breaker := Breaker(Open, now))
      else c
    else if m.consecutive >= 3 || HighErrorRate(m) || Slow(m) || LowThroughput(m) then
      c.(breaker := Trip(c.breaker, now))
    else ProbeCell(c, now)
  }

  function ForceCell(c: Cell, now: int): Cell {
    c.(breaker := Breaker(Open, now))
  }

  function ApplyOp(c: Cell, op: CellOp, now: int): Cell {
    match op
    case Probe => ProbeCell(c, now)
    case Record(o) => c.(metrics := RecordMetrics(c.metrics, o))
    case Check => CheckCell(c, now)
    case Force => ForceCell(c, now)
  }

  // ---------- what one operation can do ----------

  /** A breaker that is Open and still cooling. */
  predicate Cooling(c: Cell, now: int) {
    c.breaker.state.Open? && !Cooled(c.breaker, now)
  }

  /** The changes a single locked section can make to a cell, whatever it is. */
  ghost predicate LegalMove(c: Cell, c': Cell, now: int) {
    // while it cools, an Open breaker stays Open, and its clock never runs backwards
    && (Cooling(c, now) ==> c'.breaker.state.Open? && (c'.breaker.lastChange == c.breaker.lastChange || c'.breaker.lastChange == now))
    // Open never becomes Closed directly
    && (c.breaker.state.Open? && !c'.breaker.state.Open? ==> c'.breaker.state.HalfOpen?)
    // leaving Open, by any operation, empties the window
    && (c.breaker.state.Open? && c'.breaker.state.HalfOpen? ==> c'.metrics == FRESH && c'.breaker.lastChange == now)
    // nothing but a cooled-down Open breaker becomes HalfOpen
    && (c'.breaker.state.HalfOpen? ==> c.breaker.state.HalfOpen? || (c.breaker.state.Open? && Cooled(c.breaker, now)))
  }

  lemma OpsAreLegal(c: Cell, op: CellOp, now: int)
    ensures LegalMove(c, ApplyOp(c, op, now), now)
    ensures (ApplyOp(c, op, now).metrics != c.metrics && !op.Record?) ==>
              c.breaker.state.Open? && ApplyOp(c, op, now).breaker.state.HalfOpen?
  {
  }

  // ---------- runs of one cell ----------

  datatype Timed = Timed(op: CellOp, now: int)

  function RunCell(c: Cell, ops: seq<Timed>): Cell
    decreases |ops|
  {
    if ops == [] then c
    else
      var last := ops[|ops| - 1];
      ApplyOp(RunCell(c, ops[..|ops| - 1]), last.op, last.now)
  }

  /** The outcomes recorded since the window was last emptied. */
  ghost function Window(c: Cell, ops: seq<Timed>): seq<Outcome>
    decreases |ops|
  {
    if ops == [] then []
    else
      var prev := RunCell(c, ops[..|ops| - 1]);
      var w := Window(c, ops[..|ops| - 1]);
      var last := ops[|ops| - 1];
      if prev.breaker.state.Open? && RunCell(c, ops).breaker.state.HalfOpen? then []
      else if last.op.Record? then w + [last.op.o]
      else w
  }

  function Tally(w: seq<Outcome>): Metrics
    decreases |w|
  {
    if w == [] then FRESH else RecordMetrics(Tally(w[..|w| - 1]), w[|w| - 1])
  }

  function CountFailed(w: seq<Outcome>): nat
    decreases |w|
  {
    if w == [] then 0 else CountFailed(w[..|w| - 1]) + (if w[|w| - 1].failed then 1 else 0)
  }

  /** What the counters of a window mean: all requests, the failed ones, and the
      length of the failing streak at the end. */
  lemma {:induction false} TallyMeaning(w: seq<Outcome>)
    ensures Tally(w).requests == |w|
    ensures Tally(w).errors == CountFailed(w)
    ensures Tally(w).consecutive <= Tally(w).errors <= Tally(w).requests
    ensures forall i :: |w| - Tally(w).consecutive <= i < |w| ==> w[i].failed
    ensures Tally(w).consecutive < |w| ==> !w[|w| - 1 - Tally(w).consecutive].failed
  {
    if w != [] {
      TallyMeaning(w[..|w| - 1]);
    }
  }

  function SumLatency(w: seq<Outcome>): nat
    decreases |w|
  {
    if w == [] then 0 else SumLatency(w[..|w| - 1]) + w[|w| - 1].latency
  }

  function SumTokens(w: seq<Outcome>): int
    decreases |w|
  {
    if w == [] then 0 else SumTokens(w[..|w| - 1]) + w[|w| - 1].tokens
  }

  lemma {:induction false} TallySums(w: seq<Outcome>)
    ensures Tally(w).latency == SumLatency(w) && Tally(w).tokens == SumTokens(w)
    decreases |w|
  {
    if w != [] {
      TallySums(w[..|w| - 1]);
    }
  }

  /** In every run the counters are exactly the outcomes recorded since the window was last
      emptied, and it is emptied exactly when the breaker turns HalfOpen. */
  lemma {:induction false} CountersAreTheWindow(now0: int, ops: seq<Timed>)
    ensures RunCell(NewCell(now0), ops).metrics == Tally(Window(NewCell(now0), ops))
    decreases |ops|
  {
    if ops != [] {
      var c := NewCell(now0);
      var n := |ops| - 1;
      CountersAreTheWindow(now0, ops[..n]);
      var prev := RunCell(c, ops[..n]);
      OpsAreLegal(prev, ops[n].op, ops[n].now);
      if ops[n].op.Record? {
        var w := Window(c, ops[..n]);
        assert (w + [ops[n].op.o])[..|w|] == w;
      }
    }
  }

  /** ConsecutiveFailures <= ErrorCount <= RequestCount, in every reachable cell. */
  lemma {:induction false} CountersStayOrdered(now0: int, ops: seq<Timed>)
    ensures var m := RunCell(NewCell(now0), ops).metrics;
            m.consecutive <= m.errors <= m.requests
  {
    CountersAreTheWindow(now0, ops);
    TallyMeaning(Window(NewCell(now0), ops));
  }

  ghost predicate TimesWithin(ops: seq<Timed>, lo: int, hi: int) {
    forall i :: 0 <= i < |ops| ==> lo <= ops[i].now <= hi
  }

  /** Quarantine over whole runs: whatever is done to a breaker that opened at or after a given
      moment, it stays Open for a full cooldown from that moment. */
  lemma {:induction false} QuarantineHolds(c: Cell, ops: seq<Timed>, since: int)
    requires c.breaker.state.Open? && c.breaker.lastChange >= since
    requires TimesWithin(ops, since, since + COOLDOWN)
    ensures RunCell(c, ops).breaker.state.Open?
    ensures RunCell(c, ops).breaker.lastChange >= since
    decreases |ops|
  {
    if ops != [] {
      var n := |ops| - 1;
      QuarantineHolds(c, ops[..n], since);
      OpsAreLegal(RunCell(c, ops[..n]), ops[n].op, ops[n].now);
    }
  }

  /** Recovery passes through HalfOpen: a run from Open to Closed has a HalfOpen prefix. */
  lemma {:induction false} RecoveryGoesThroughHalfOpen(c: Cell, ops: seq<Timed>) returns (k: nat)
    requires c.breaker.state.Open?
    requires RunCell(c, ops).breaker.state.Closed?
    ensures 0 < k < |ops| && RunCell(c, ops[..k]).breaker.state.HalfOpen?
    ensures RunCell(c, ops[..k - 1]).breaker.state.Open? && Cooled(RunCell(c, ops[..k - 1]).breaker, ops[k - 1].now)
    decreases |ops|
  {
    var n := |ops| - 1;
    var prev := RunCell(c, ops[..n]);
    OpsAreLegal(prev, ops[n].op, ops[n].now);
    if prev.breaker.state.Closed? {
      k := RecoveryGoesThroughHalfOpen(c, ops[..n]);
      assert ops[..n][..k] == ops[..k] && ops[..n][..k - 1] == ops[..k - 1];
    } else {
      k := LastOpening(c, ops[..n]);
      assert ops[..n][..k] == ops[..k] && ops[..n][..k - 1] == ops[..k - 1];
    }
  }

  /** A run from Open that ends HalfOpen has a step at which it left Open. */
  lemma {:induction false} LastOpening(c: Cell, ops: seq<Timed>) returns (k: nat)
    requires c.breaker.state.Open?
    requires RunCell(c, ops).breaker.state.HalfOpen?
    ensures 0 < k <= |ops| && RunCell(c, ops[..k]).breaker.state.HalfOpen?
    ensures RunCell(c, ops[..k - 1]).breaker.state.Open? && Cooled(RunCell(c, ops[..k - 1]).breaker, ops[k - 1].now)
    decreases |ops|
  {
    var n := |ops| - 1;
    var prev := RunCell(c, ops[..n]);
    OpsAreLegal(prev, ops[n].op, ops[n].now);
    assert ops[..|ops|] == ops;
    if prev.breaker.state.Open? {
      k := n + 1;
    } else {
      k := LastOpening(c, ops[..n]);
      assert ops[..n][..k] == ops[..k] && ops[..n][..k - 1] == ops[..k - 1];
    }
  }

  /** When a probe is judged: a HalfOpen breaker that is checked closes exactly when its window
      ends in a success, opens exactly after three failures in a row, and otherwise waits. */
  lemma ProbationVerdict(now0: int, ops: seq<Timed>, now: int)
    requires RunCell(NewCell(now0), ops).breaker.state.HalfOpen?
    ensures var w, c := Window(NewCell(now0), ops), RunCell(NewCell(now0), ops);
            CheckCell(c, now) ==
              if w != [] && !w[|w| - 1].failed then c.(breaker := Breaker(Closed, now))
              else if EndsInThreeFailures(w) then c.(breaker := Breaker(Open, now))
              else c
  {
    CountersAreTheWindow(now0, ops);
    StreakIs(Window(NewCell(now0), ops));
  }

  ghost predicate EndsInThreeFailures(w: seq<Outcome>) {
    |w| >= 3 && w[|w| - 1].failed && w[|w| - 2].failed && w[|w| - 3].failed
  }

  lemma StreakIs(w: seq<Outcome>)
    ensures Tally(w).consecutive >= 3 <==> EndsInThreeFailures(w)
    ensures Tally(w).consecutive == 0 <==> w == [] || !w[|w| - 1].failed
  {
    TallyMeaning(w);
    var k := Tally(w).consecutive;
    if k < |w| {
      assert !w[|w| - 1 - k].failed;
    }
  }

  /** What trips a breaker: the last three requests failed; of more than ten, more than a fifth failed;
      more than five took over 30 seconds on average; or more than five gave tokens, but fewer than ten
      a second. */
  ghost predicate Troubled(w: seq<Outcome>) {
    || EndsInThreeFailures(w)
    || (|w| > 10 && 5 * CountFailed(w) > |w|)
    || (|w| > 5 && SumLatency(w) / |w| > 30_000_000_000)
    || (|w| > 5 && SumTokens(w) > 0 && SumTokens(w) * 1_000_000_000 < 10 * SumLatency(w))
  }

  /** What a check makes of a breaker whose window is w. On probation it closes when the window ends in
      a success and opens after three failures in a row. A Closed one opens exactly when its window is
      troubled. An Open one is probed exactly when it is not and 300 seconds have passed. Otherwise a
      check changes nothing. */
  ghost function Verdict(c: Cell, w: seq<Outcome>, now: int): Cell {
    match c.breaker.state
    case HalfOpen =>
      if w != [] && !w[|w| - 1].failed then c.(breaker := Breaker(Closed, now))
      else if EndsInThreeFailures(w) then c.(breaker := Breaker(Open, now))
      else c
    case Closed =>
      if Troubled(w) then c.(breaker := Breaker(Open, now)) else c
    case Open =>
      if !Troubled(w) && now - c.breaker.lastChange > 300_000_000_000 then Cell(Breaker(HalfOpen, now), Metrics(0, 0, 0, 0, 0))
      else c
  }

  lemma CheckVerdict(now0: int, ops: seq<Timed>, now: int)
    ensures var w, c := Window(NewCell(now0), ops), RunCell(NewCell(now0), ops);
            CheckCell(c, now) == Verdict(c, w, now)
  {
    var w := Window(NewCell(now0), ops);
    CountersAreTheWindow(now0, ops);
    TallyMeaning(w);
    TallySums(w);
    StreakIs(w);
  }
}
