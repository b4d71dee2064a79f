/** The world around one request of the model proxy (internal/modelproxy/proxy.go): what the upstream
    answers to each dial, how time passes, and what other requests do to the strategy between any two
    locked sections of this one. */
module Upstream {
  import opened Text
  import opened Breakers
  import opened Router
  import Sse

  /** One upstream answer. */
  datatype Answer =
    | Unbuilt                                                       // the request could not be built
    | TransportError(retryable: bool)
    | HttpError(code: int, saturationText: bool, faultText: bool)   // status 400 or above
    | Success(scanned: seq<Sse.Item>, eofAt: int, ticks: seq<int>, readOK: bool, tokens: int)

  /** The n-th moment, the answer to the n-th dial, whether the saturation gate lets the request
      through after n dials, the draw at the n-th moment, and what others do after it. */
  datatype World = World(clock: nat -> int, answer: nat -> Answer, gate: nat -> bool, pick: nat -> nat, others: nat -> seq<Event>)

  function Clock(w: World, n: nat): int { w.clock(n) }

  function AnswerTo(w: World, n: nat): Answer { w.answer(n) }

  function Gate(w: World, n: nat): bool { w.gate(n) }

  function Draw(w: World, n: nat): nat { w.pick(n) }

  function OthersAt(w: World, n: nat): seq<Event> { w.others(n) }

  /** Time does not run backwards, and what others do happens when it happens. */
  ghost predicate Orderly(w: World) {
    && (forall i: nat, j: nat :: i <= j ==> Clock(w, i) <= Clock(w, j))
    && (forall i: nat {:trigger OthersAt(w, i)} :: EventsWithin(OthersAt(w, i), Clock(w, i), Clock(w, i + 1)))
  }

  /** Every moment of the request lies within the horizon. */
  ghost predicate EndsWithin(w: World, horizon: nat) {
    forall i: nat :: Clock(w, i) <= Clock(w, 0) + horizon
  }

  /** What the client gets. */
  datatype Reply =
    | NoModel                  // 503 or 400: nothing to route to
    | Cancelled                // 503 at the saturation gate
    | NotBuilt                 // 400
    | TransportFailed          // 502
    | Refused(code: int)       // the upstream's error status
    | Streamed(failed: bool)
    | ReadFailed               // 502
    | Answered
    | Exhausted                // 502 after the loop

  /** One dial: when it was made, by the moment of the request's last locked section before it,
      and how often the request had been re-routed by then. */
  datatype Dial = Dial(model: string, provider: Provider, at: int, leg: nat)

  predicate TransientStatus(code: int) {
    code == 408 || code == 429 || code == 500 || code == 502 || code == 503 || code == 504
  }

  function Max(a: int, b: int): int {
    if a < b then b else a
  }

  /** While a cooldown that began at since lasts, the model's breaker is Open. */
  ghost predicate Kept(c: Core, id: string, since: int, now: int) {
    now <= since + COOLDOWN ==> OpenSince(c, id, since)
  }

  /** Whatever was kept at lo is still kept at hi. */
  ghost predicate Keeps(c: Core, c': Core, lo: int, hi: int) {
    lo <= hi && forall id, since {:trigger Kept(c', id, since, hi)} :: since <= lo && Kept(c, id, since, lo) ==> Kept(c', id, since, hi)
  }

  lemma RunKeeps(cfg: Config, c: Core, evs: seq<Event>, lo: int, hi: int)
    requires lo <= hi && EventsWithin(evs, lo, hi)
    ensures Keeps(c, Run(cfg, c, evs), lo, hi)
  {
    forall id, since | since <= lo && Kept(c, id, since, lo) ensures Kept(Run(cfg, c, evs), id, since, hi) {
      if hi <= since + COOLDOWN {
        OpenStaysOpen(cfg, c, evs, id, since);
      }
    }
  }

  lemma StepKeeps(cfg: Config, c: Core, e: Event)
    ensures Keeps(c, Step(cfg, c, e), e.now, e.now)
  {
    assert [e][..0] == [];
    assert Run(cfg, c, [e][..0]) == c;
    RunKeeps(cfg, c, [e], e.now, e.now);
  }

  lemma KeepsOn(c0: Core, c1: Core, c2: Core, t0: int, t1: int, t2: int)
    requires Keeps(c0, c1, t0, t1) && Keeps(c1, c2, t1, t2)
    ensures Keeps(c0, c2, t0, t2)
  {
    forall id, since | since <= t0 && Kept(c0, id, since, t0) ensures Kept(c2, id, since, t2) {
      assert Kept(c1, id, since, t1);
    }
  }

  // ---------- this request among the others ----------

  /** What the strategy's log gains while this request makes these events, one at each moment from
      t0 on: before each of them, what the others do. */
  function Woven(w: World, t0: nat, mine: seq<Event>): seq<Event>
    decreases |mine|
  {
    if mine == [] then []
    else
      var n := |mine| - 1;
      Woven(w, t0, mine[..n]) + OthersAt(w, t0 + n) + [mine[n]]
  }

  lemma WeaveOn(l: seq<Event>, l0: seq<Event>, w: World, t0: nat, before: seq<Event>, e: Event)
    requires l == l0 + Woven(w, t0, before)
    ensures l + OthersAt(w, t0 + |before|) + [e] == l0 + Woven(w, t0, before + [e])
  {
    assert (before + [e])[..|before|] == before;
    InThreeSteps(l0, Woven(w, t0, before), OthersAt(w, t0 + |before|), [e]);
  }

  lemma InThreeSteps(l: seq<Event>, a: seq<Event>, b: seq<Event>, c: seq<Event>)
    ensures l + a + b + c == l + (a + b + c)
  {
  }

  ghost predicate NoRecords(evs: seq<Event>) {
    forall i :: 0 <= i < |evs| ==> !evs[i].action.Record?
  }

  /** How many outcomes of a model these events record. */
  function Outcomes(evs: seq<Event>, id: string): nat
    decreases |evs|
  {
    if evs == [] then 0
    else
      var e := evs[|evs| - 1];
      Outcomes(evs[..|evs| - 1], id) + if e.action.Record? && e.action.id == id then 1 else 0
  }

  lemma {:induction false} OutcomesAppend(a: seq<Event>, b: seq<Event>, id: string)
    ensures Outcomes(a + b, id) == Outcomes(a, id) + Outcomes(b, id)
    decreases |b|
  {
    if b == [] {
      assert a + b == a;
    } else {
      assert (a + b)[..|a + b| - 1] == a + b[..|b| - 1];
      OutcomesAppend(a, b[..|b| - 1], id);
    }
  }

  lemma {:induction false} NoOutcomes(evs: seq<Event>, id: string)
    requires NoRecords(evs)
    ensures Outcomes(evs, id) == 0
    decreases |evs|
  {
    if evs != [] {
      NoOutcomes(evs[..|evs| - 1], id);
    }
  }

  /** What the others do at n moments from t0 on. */
  function OthersDuring(w: World, t0: nat, n: nat): seq<Event> {
    if n == 0 then [] else OthersDuring(w, t0, n - 1) + OthersAt(w, t0 + n - 1)
  }

  lemma {:induction false} WovenOutcomes(w: World, t0: nat, mine: seq<Event>, id: string)
    ensures Outcomes(Woven(w, t0, mine), id) == Outcomes(OthersDuring(w, t0, |mine|), id) + Outcomes(mine, id)
    decreases |mine|
  {
    if mine != [] {
      var n := |mine| - 1;
      WovenOutcomes(w, t0, mine[..n], id);
      OneMoreOutcome(Woven(w, t0, mine[..n]), OthersAt(w, t0 + n), mine[n], id);
      OutcomesAppend(OthersDuring(w, t0, n), OthersAt(w, t0 + n), id);
      LastOutcome(mine, id);
    }
  }

  lemma LastOutcome(evs: seq<Event>, id: string)
    requires evs != []
    ensures Outcomes(evs, id) == Outcomes(evs[..|evs| - 1], id) + Outcomes([evs[|evs| - 1]], id)
  {
    OutcomesAppend(evs[..|evs| - 1], [evs[|evs| - 1]], id);
    assert evs == evs[..|evs| - 1] + [evs[|evs| - 1]];
  }

  lemma OneMoreOutcome(evs: seq<Event>, others: seq<Event>, e: Event, id: string)
    ensures Outcomes(evs + others + [e], id) == Outcomes(evs, id) + Outcomes(others, id) + Outcomes([e], id)
  {
    OutcomesAppend(evs, others, id);
    OutcomesAppend(evs + others, [e], id);
  }
}
