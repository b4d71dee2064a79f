/** What becomes of a model on probation that a request is sent to (internal/modelproxy/proxy.go,
    forwardChat): which answers force its breaker open, and what the request leaves behind. */
module Probes {
  import opened Text
  import opened Breakers
  import opened Router
  import opened Legs
  import opened Upstream
  import opened Serving
  import opened Served
  import opened Retries
  import Sse

  /** Did the upstream succeed only in its status: a stream that the relay calls failed, or a body that
      could not be read? */
  predicate FailsInside(q: Request, final: State) {
    && final.v.last.Success?
    && if q.streaming then Piped(q.texts, final.v.prov.holdTimeout, final.v.attempt, final.v.attempts, final.v.last).failed
       else !final.v.last.readOK
  }

  /** The replies that are checked without being recorded as failures are those to such an upstream. */
  lemma FailsInsideIff(q: Request, c0: Core, ss: seq<State>, reply: Reply, final: State)
    requires Proper(q, c0) && Ends(q, c0, ss, reply, final) && Counts(reply) && !reply.Exhausted?
    ensures FailsInside(q, final) <==> Checked(reply) && !RecordedAsFailure(reply)
    ensures final.v.last.Success? <==> !RecordedAsFailure(reply)
  {
    RepliesAreEarned(q, c0, ss, reply, final);
  }

  // ---------- quarantine by an answer ----------

  /** What was quarantined in one state of a request is so in a later one. */
  ghost predicate Held(q: Request, s: State, s': State) {
    Keeps(s.core, s'.core, Clock(q.world, s.v.t), Clock(q.world, s'.v.t))
  }

  lemma HeldOn(q: Request, a: State, b: State, c: State)
    requires Held(q, a, b) && Held(q, b, c)
    ensures Held(q, a, c)
  {
    KeepsOn(a.core, b.core, c.core, Clock(q.world, a.v.t), Clock(q.world, b.v.t), Clock(q.world, c.v.t));
  }

  lemma LeaveHolds(q: Request, d: State)
    requires q.cfg.Some? && Orderly(q.world)
    ensures Held(q, d, LeaveModel(q, d))
  {
    var forced := Act(q, d, Action.Force(d.v.model));
    ActKeeps(q, d, Action.Force(d.v.model));
    ActKeeps(q, forced, Action.Route(q.session, Draw(q.world, forced.v.t + 1)));
    HeldOn(q, d, forced, RouteNow(q, forced));
  }

  lemma LeavingHolds(q: Request, s: State)
    requires q.cfg.Some? && Orderly(q.world)
    ensures Held(q, s, Leaving(q, s))
  {
    if !AnswerTo(q.world, |s.v.dials|).HttpError? {
      ActKeeps(q, JustDialled(q, s), Action.Check(s.v.model));
    }
  }

  lemma PassHolds(q: Request, s: State)
    requires q.cfg.Some? && Orderly(q.world) && s.v.attempts == BudgetOf(q) && Pass(q, s).Next?
    ensures Held(q, s, Pass(q, s).s)
  {
    PassForces(q, s);
    if ForcedFrom(q, s) {
      LeavingHolds(q, s);
      LeaveHolds(q, Leaving(q, s));
      HeldOn(q, s, Leaving(q, s), LeaveModel(q, Leaving(q, s)));
    }
  }

  lemma SettleHolds(q: Request, s: State, tokens: int, failed: bool, check: bool)
    requires q.cfg.Some? && Orderly(q.world)
    ensures Held(q, s, Settle(q, s, tokens, failed, check))
  {
    var record := Action.Record(s.v.model, Outcome(Elapsed(q, s.v.t), tokens, failed));
    var recorded := Act(q, s, record);
    ActKeeps(q, s, record);
    if check {
      ActKeeps(q, recorded, Action.Check(s.v.model));
      HeldOn(q, s, recorded, Act(q, recorded, Action.Check(s.v.model)));
    }
  }

  lemma OneHolds(q: Request, c0: Core, ss: seq<State>, k: nat)
    requires Proper(q, c0) && q.cfg.Some? && Course(q, c0, ss) && k + 1 < |ss|
    ensures Held(q, ss[k], ss[k + 1])
  {
    CourseIsSound(q, c0, ss, k);
    assert Leads(q, ss, k);
    PassHolds(q, ss[k]);
  }

  lemma {:induction false} CourseHolds(q: Request, c0: Core, ss: seq<State>, j: nat, k: nat)
    requires Proper(q, c0) && q.cfg.Some? && Course(q, c0, ss) && j <= k < |ss|
    ensures Held(q, ss[j], ss[k])
    decreases k
  {
    if j < k {
      CourseHolds(q, c0, ss, j, k - 1);
      OneHolds(q, c0, ss, k - 1);
      HeldOn(q, ss[j], ss[k - 1], ss[k]);
    }
  }

  /** The last pass holds quarantines too. */
  lemma EndHolds(q: Request, c0: Core, ss: seq<State>, reply: Reply, final: State, j: nat)
    requires Proper(q, c0) && q.cfg.Some? && Ends(q, c0, ss, reply, final) && j < |ss|
    ensures Held(q, ss[j], final)
  {
    var s := ss[|ss| - 1];
    CourseHolds(q, c0, ss, j, |ss| - 1);
    if s.v.attempt < s.v.attempts {
      DoneIs(q, s);
      if Counts(reply) {
        SettleHolds(q, Answering(q, s), TokensFor(q, Answering(q, s), reply), RecordedAsFailure(reply), Checked(reply));
        assert Held(q, s, final);
        HeldOn(q, ss[j], s, final);
      }
    }
  }

  // ---------- a model that was forced open ----------

  lemma LeavingOpens(q: Request, c0: Core, d: State)
    requires q.cfg.Some? && Orderly(q.world) && Logged(q, c0, d) && d.v.model in ModelIds(q.cfg.value)
    ensures var s' := LeaveModel(q, d);
            Kept(s'.core, d.v.model, Clock(q.world, d.v.t + 1), Clock(q.world, s'.v.t)) && d.v.t + 1 <= s'.v.t
  {
    ForcedIsKept(q, c0, d);
    ForcedStaysKept(q, Act(q, d, Action.Force(d.v.model)), d.v.model);
  }

  lemma LeavingIsLogged(q: Request, c0: Core, s: State)
    requires q.cfg.Some? && Orderly(q.world) && Sound(q, c0, s)
    ensures Logged(q, c0, Leaving(q, s)) && s.v.model in ModelIds(q.cfg.value)
  {
    OursIsTracked(q, c0, s);
    ActLogs(q, c0, JustDialled(q, s), Action.Check(s.v.model));
  }

  lemma ForcedIsKeptAfter(q: Request, c0: Core, s: State) returns (since: int)
    requires Orderly(q.world) && q.cfg.Some? && Sound(q, c0, s) && Pass(q, s).Next? && ForcedFrom(q, s)
    ensures Clock(q.world, s.v.t) <= since <= Clock(q.world, Pass(q, s).s.v.t)
    ensures Kept(Pass(q, s).s.core, s.v.model, since, Clock(q.world, Pass(q, s).s.v.t))
  {
    PassForces(q, s);
    LeavingIsLogged(q, c0, s);
    LeavingOpens(q, c0, Leaving(q, s));
    since := Clock(q.world, Leaving(q, s).v.t + 1);
  }

  /** A model that an answer forced open is Open when the request ends, unless that is more than a
      cooldown later: whatever the request and others do meanwhile. */
  lemma ForcedModelEndsOpen(q: Request, c0: Core, ss: seq<State>, reply: Reply, final: State, j: nat)
    requires Proper(q, c0) && q.cfg.Some? && Ends(q, c0, ss, reply, final)
    requires j < |ss| - 1 && ForcedFrom(q, ss[j])
    requires Clock(q.world, final.v.t) <= Clock(q.world, ss[j].v.t) + COOLDOWN
    ensures var m := ss[j].v.model;
            m in final.core.cells && final.core.cells[m].breaker.state.Open?
  {
    CourseIsSound(q, c0, ss, j);
    EndHolds(q, c0, ss, reply, final, j + 1);
    assert Leads(q, ss, j);
    var since := ForcedIsKeptAfter(q, c0, ss[j]);
    assert Kept(final.core, ss[j].v.model, since, Clock(q.world, final.v.t));
  }

  // ---------- an undisturbed leg ----------

  predicate Quiet(w: World, n: nat) {
    OthersAt(w, n) == [] && Clock(w, n + 1) <= Clock(w, n) + COOLDOWN
  }

  /** Nobody else acts between these moments, and no cooldown passes between two adjacent ones. */
  ghost predicate Undisturbed(w: World, lo: nat, hi: nat) {
    forall n: nat :: lo <= n < hi ==> Quiet(w, n)
  }

  lemma UndisturbedPart(w: World, lo: nat, a: nat, b: nat, hi: nat)
    requires Undisturbed(w, lo, hi) && lo <= a && b <= hi
    ensures Undisturbed(w, a, b)
  {
  }

  predicate InState(c: Core, id: string, b: BreakerState) {
    id in c.cells && c.cells[id].breaker.state == b
  }

  lemma PassGrows(q: Request, s: State)
    requires Pass(q, s).Next?
    ensures s.v.leg <= Pass(q, s).s.v.leg && s.v.t <= Pass(q, s).s.v.t
  {
  }

  lemma {:induction false} CourseGrows(q: Request, c0: Core, ss: seq<State>, i: nat, j: nat)
    requires Course(q, c0, ss) && i <= j < |ss|
    ensures ss[i].v.leg <= ss[j].v.leg && ss[i].v.t <= ss[j].v.t
    decreases j
  {
    if i < j {
      CourseGrows(q, c0, ss, i, j - 1);
      assert Leads(q, ss, j - 1);
      PassGrows(q, ss[j - 1]);
    }
  }

  /** A routing decision leaves a cooling breaker Open. */
  lemma CoolingStaysOpen(cfg: Config, c: Core, e: Event, id: string)
    requires id in c.cells && Cooling(c.cells[id], e.now) && e.action.Route?
    ensures InState(Step(cfg, c, e), id, Open)
  {
    StepOnCell(cfg, c, e, id);
  }

  lemma ForcedIsCooling(q: Request, d: State)
    requires q.cfg.Some? && d.v.model in d.core.cells
    ensures var forced := Act(q, d, Action.Force(d.v.model));
            && d.v.model in forced.core.cells
            && forced.core.cells[d.v.model].breaker == Breaker(Open, Clock(q.world, forced.v.t))
  {
    RunKeepsKeys(q.cfg.value, d.core, OthersAt(q.world, d.v.t));
  }

  /** A request that fails to leave its model leaves its breaker Open. */
  lemma NotLeavingOpens(q: Request, d: State)
    requires q.cfg.Some? && d.v.model in d.core.cells && LeaveModel(q, d).v.leg == d.v.leg
    requires Quiet(q.world, d.v.t + 1)
    ensures LeaveModel(q, d).v.model == d.v.model && InState(LeaveModel(q, d).core, d.v.model, Open)
  {
    var forced := Act(q, d, Action.Force(d.v.model));
    ForcedIsCooling(q, d);
    CoolingStaysOpen(q.cfg.value, forced.core, Event(Clock(q.world, forced.v.t + 1), Action.Route(q.session, Draw(q.world, forced.v.t + 1))), d.v.model);
  }

  lemma StayingForced(q: Request, c0: Core, s: State)
    requires Proper(q, c0) && q.cfg.Some? && Sound(q, c0, s) && Pass(q, s).Next? && Pass(q, s).s.v.leg == s.v.leg
    requires ForcedFrom(q, s) && Undisturbed(q.world, s.v.t, Pass(q, s).s.v.t)
    ensures Pass(q, s).s.v.model == s.v.model && InState(Pass(q, s).s.core, s.v.model, Open)
  {
    PassForces(q, s);
    LeavingIsLogged(q, c0, s);
    var d := Leaving(q, s);
    assert LeaveModel(q, d).v.t == d.v.t + 2;
    assert Quiet(q.world, d.v.t + 1);
    NotLeavingOpens(q, d);
  }

  /** Did one of the answers to the dials from the j-th to before the n-th force its model open? */
  ghost predicate ForcedBetween(q: Request, ss: seq<State>, j: nat, n: nat)
    requires n <= |ss|
  {
    exists i :: j <= i < n && ForcedFrom(q, ss[i])
  }

  /** On one undisturbed leg, nothing happens to the strategy until an answer forces the model open,
      and then its breaker is Open after every pass. */
  lemma {:induction false} LegState(q: Request, c0: Core, ss: seq<State>, j: nat, i: nat)
    requires Proper(q, c0) && q.cfg.Some? && Course(q, c0, ss) && j <= i < |ss| && ss[j].v.leg == ss[i].v.leg
    requires Undisturbed(q.world, ss[j].v.t, ss[i].v.t)
    ensures ss[i].v.model == ss[j].v.model
    ensures if ForcedBetween(q, ss, j, i) then InState(ss[i].core, ss[j].v.model, Open)
            else ss[i].core == ss[j].core && ss[i].v.t == ss[j].v.t
    decreases i
  {
    if j < i {
      CourseGrows(q, c0, ss, j, i - 1);
      CourseGrows(q, c0, ss, i - 1, i);
      UndisturbedPart(q.world, ss[j].v.t, ss[j].v.t, ss[i - 1].v.t, ss[i].v.t);
      UndisturbedPart(q.world, ss[j].v.t, ss[i - 1].v.t, ss[i].v.t, ss[i].v.t);
      LegState(q, c0, ss, j, i - 1);
      LegStep(q, c0, ss, i - 1);
      if ForcedBetween(q, ss, j, i - 1) {
        var f :| j <= f < i - 1 && ForcedFrom(q, ss[f]);
        assert ForcedBetween(q, ss, j, i);
      }
    }
  }

  lemma LegStep(q: Request, c0: Core, ss: seq<State>, i: nat)
    requires Proper(q, c0) && q.cfg.Some? && Course(q, c0, ss) && i + 1 < |ss| && ss[i + 1].v.leg == ss[i].v.leg
    requires Undisturbed(q.world, ss[i].v.t, ss[i + 1].v.t)
    ensures ss[i + 1].v.model == ss[i].v.model
    ensures if ForcedFrom(q, ss[i]) then InState(ss[i + 1].core, ss[i].v.model, Open)
            else ss[i + 1].core == ss[i].core && ss[i + 1].v.t == ss[i].v.t
  {
    CourseIsSound(q, c0, ss, i);
    assert Leads(q, ss, i);
    PassForces(q, ss[i]);
    if ForcedFrom(q, ss[i]) {
      StayingForced(q, c0, ss[i]);
    }
  }

  // ---------- the verdict on a probe ----------

  /** A record, and perhaps a check, of a HalfOpen breaker: a check closes it exactly when the outcome
      was not recorded as a failure, and without a check it stays HalfOpen. */
  lemma RecordThenCheck(cfg: Config, c: Core, model: string, record: Event, check: Event, checked: bool)
    requires InState(c, model, HalfOpen)
    requires record.action.Record? && record.action.id == model && check.action == Action.Check(model)
    ensures var c1 := Step(cfg, c, record);
            var c2 := if checked then Step(cfg, c1, check) else c1;
            && model in c2.cells
            && (c2.cells[model].breaker.state.Closed? <==> checked && !record.action.o.failed)
            && (!checked ==> c2.cells[model].breaker.state.HalfOpen?)
  {
  }

  /** And of an Open one, which no check closes. */
  lemma RecordThenCheckOpen(cfg: Config, c: Core, model: string, record: Event, check: Event, checked: bool)
    requires InState(c, model, Open)
    requires record.action.Record? && record.action.id == model && check.action == Action.Check(model)
    ensures var c1 := Step(cfg, c, record);
            var c2 := if checked then Step(cfg, c1, check) else c1;
            model in c2.cells && !c2.cells[model].breaker.state.Closed?
  {
  }

  lemma SettledVerdict(q: Request, s: State, tokens: int, failed: bool, check: bool)
    requires q.cfg.Some? && Quiet(q.world, s.v.t) && (check ==> Quiet(q.world, s.v.t + 1))
    ensures var m, final := s.v.model, Settle(q, s, tokens, failed, check);
            && (InState(s.core, m, HalfOpen) ==>
                  && m in final.core.cells && (InState(final.core, m, Closed) <==> check && !failed)
                  && (!check ==> InState(final.core, m, HalfOpen)))
            && (InState(s.core, m, Open) ==> !InState(final.core, m, Closed))
  {
    var m := s.v.model;
    var record := Event(Clock(q.world, s.v.t + 1), Action.Record(m, Outcome(Elapsed(q, s.v.t), tokens, failed)));
    var checkNow := Event(Clock(q.world, s.v.t + 2), Action.Check(m));
    if InState(s.core, m, HalfOpen) {
      RecordThenCheck(q.cfg.value, s.core, m, record, checkNow, check);
    } else if InState(s.core, m, Open) {
      RecordThenCheckOpen(q.cfg.value, s.core, m, record, checkNow, check);
    }
  }

  /** How the last pass ends for a strategy request whose outcome counts. */
  lemma LastPass(q: Request, c0: Core, ss: seq<State>, reply: Reply, final: State)
    requires Proper(q, c0) && q.cfg.Some? && Ends(q, c0, ss, reply, final) && Counts(reply)
    ensures var s := ss[|ss| - 1];
            && final == Settle(q, Answering(q, s), TokensFor(q, Answering(q, s), reply), RecordedAsFailure(reply), Checked(reply))
            && Answering(q, s).core == s.core && Answering(q, s).v.t == s.v.t && Answering(q, s).v.model == s.v.model
            && final.v.leg == s.v.leg && final.v.model == s.v.model
            && final.v.t == s.v.t + (if Checked(reply) then 2 else 1)
            && !reply.Exhausted?
  {
    CourseIsSound(q, c0, ss, |ss| - 1);
    DoneIs(q, ss[|ss| - 1]);
  }

  /** What becomes of a probe: a model that was HalfOpen when the request's last leg began, on a leg that
      nobody else disturbed. Its breaker is Closed afterwards exactly when the upstream succeeded only in
      its status, by its stream or its body, and no earlier answer on the leg forced it open. When it
      succeeded altogether the breaker is still HalfOpen, because it is not checked. */
  lemma ProbeVerdict(q: Request, c0: Core, ss: seq<State>, reply: Reply, final: State, j: nat)
    requires Proper(q, c0) && q.cfg.Some? && Ends(q, c0, ss, reply, final) && Counts(reply)
    requires j < |ss| && ss[j].v.leg == final.v.leg && InState(ss[j].core, ss[j].v.model, HalfOpen)
    requires Undisturbed(q.world, ss[j].v.t, final.v.t)
    ensures final.v.model == ss[j].v.model
    ensures InState(final.core, final.v.model, Closed) <==> FailsInside(q, final) && !ForcedBetween(q, ss, j, |ss| - 1)
    ensures final.v.last.Success? && !FailsInside(q, final) && !ForcedBetween(q, ss, j, |ss| - 1) ==>
              InState(final.core, final.v.model, HalfOpen)
  {
    var n := |ss| - 1;
    LastPass(q, c0, ss, reply, final);
    CourseGrows(q, c0, ss, j, n);
    UndisturbedPart(q.world, ss[j].v.t, ss[j].v.t, ss[n].v.t, final.v.t);
    LegState(q, c0, ss, j, n);
    SettledVerdict(q, Answering(q, ss[n]), TokensFor(q, Answering(q, ss[n]), reply), RecordedAsFailure(reply), Checked(reply));
    FailsInsideIff(q, c0, ss, reply, final);
  }

  // ---------- streams without a line ----------

  predicate EmptyStream(a: Answer) {
    a.Success? && a.scanned == [] && a.ticks == []
  }

  /** A stream without a line fails, and not early. */
  lemma EmptyStreamFails(texts: Sse.Texts, holdTimeout: int, attempt: int, attempts: int, a: Answer)
    requires EmptyStream(a)
    ensures Piped(texts, holdTimeout, attempt, attempts, a).failed && !Piped(texts, holdTimeout, attempt, attempts, a).retryEarly
  {
    var p := Sse.Params(attempt < attempts, attempt == 1 && attempts <= 1, holdTimeout, texts);
    var feed := Sse.Feed([], a.eofAt, []);
    assert feed == [Sse.Line("", a.eofAt)] && feed[..0] == [];
    assert Sse.Fold(p, []) == Sse.Running(Sse.START);
    assert TrimSpace("") == "";
    assert Sse.Fold(p, feed) == Sse.OnItem(p, Sse.START, feed[0]);
  }

  /** While attempts are left it is not passed on. */
  lemma EmptyStreamGoesOn(q: Request, s: State)
    requires q.cfg.Some? && q.streaming && EmptyStream(AnswerTo(q.world, |s.v.dials|)) && s.v.attempts == BudgetOf(q)
    requires s.v.attempt + 1 < s.v.attempts
    ensures ForcedFrom(q, s)
    ensures Pass(q, s).Done? ==> Pass(q, s).s == s
  {
    EmptyStreamFails(q.texts, s.v.prov.holdTimeout, s.v.attempt + 1, s.v.attempts, AnswerTo(q.world, |s.v.dials|));
  }

  lemma NextAttempt(q: Request, s: State)
    requires Pass(q, s).Next? && Pass(q, s).s.v.attempt > 0
    ensures Pass(q, s).s.v.attempt == s.v.attempt + 1 && Pass(q, s).s.v.model == s.v.model
  {
  }

  /** A probe whose dials are all answered by such streams ends Open, and so does every other model the
      request tried, unless it takes more than a cooldown: the first of at least two attempts forces it. */
  lemma EmptyStreamsEndOpen(q: Request, c0: Core, ss: seq<State>, reply: Reply, final: State, i: nat)
    requires Proper(q, c0) && q.cfg.Some? && q.streaming && Ends(q, c0, ss, reply, final) && i < |final.v.dials|
    requires forall n :: 0 <= n < |final.v.dials| ==> EmptyStream(AnswerTo(q.world, n))
    requires Clock(q.world, final.v.t) <= Clock(q.world, q.begun) + COOLDOWN
    ensures InState(final.core, final.v.dials[i].model, Open)
  {
    DialIsMadeIn(q, c0, ss, reply, final, i);
    EmptyStreamsOpen(q, c0, ss, reply, final, i);
  }

  lemma {:induction false} EmptyStreamsOpen(q: Request, c0: Core, ss: seq<State>, reply: Reply, final: State, i: nat)
    requires Proper(q, c0) && q.cfg.Some? && q.streaming && Ends(q, c0, ss, reply, final) && i < |final.v.dials| && i < |ss|
    requires forall n :: 0 <= n < |final.v.dials| ==> EmptyStream(AnswerTo(q.world, n))
    requires Clock(q.world, final.v.t) <= Clock(q.world, q.begun) + COOLDOWN
    ensures InState(final.core, ss[i].v.model, Open)
  {
    if ss[i].v.attempt + 1 < ss[i].v.attempts {
      EmptyDialEndsOpen(q, c0, ss, reply, final, i);
    } else {
      SecondAttempt(q, c0, ss, i);
      EmptyStreamsOpen(q, c0, ss, reply, final, i - 1);
    }
  }

  lemma EmptyDialIsNotLast(q: Request, c0: Core, ss: seq<State>, reply: Reply, final: State, i: nat)
    requires Proper(q, c0) && q.cfg.Some? && q.streaming && Ends(q, c0, ss, reply, final) && i < |final.v.dials|
    requires i < |ss| && ss[i].v.attempt + 1 < ss[i].v.attempts && EmptyStream(AnswerTo(q.world, i))
    ensures i < |ss| - 1 && ForcedFrom(q, ss[i])
  {
    DialIsMadeIn(q, c0, ss, reply, final, i);
    FullBudget(q, c0, ss, i);
    EmptyStreamGoesOn(q, ss[i]);
  }

  lemma FullBudget(q: Request, c0: Core, ss: seq<State>, i: nat)
    requires Proper(q, c0) && q.cfg.Some? && Course(q, c0, ss) && i < |ss|
    ensures ss[i].v.attempts == BudgetOf(q)
  {
    CourseIsSound(q, c0, ss, i);
  }

  lemma EmptyDialEndsOpen(q: Request, c0: Core, ss: seq<State>, reply: Reply, final: State, i: nat)
    requires Proper(q, c0) && q.cfg.Some? && q.streaming && Ends(q, c0, ss, reply, final) && i < |final.v.dials|
    requires i < |ss| && ss[i].v.attempt + 1 < ss[i].v.attempts && EmptyStream(AnswerTo(q.world, i))
    requires Clock(q.world, final.v.t) <= Clock(q.world, q.begun) + COOLDOWN
    ensures InState(final.core, ss[i].v.model, Open)
  {
    EmptyDialIsNotLast(q, c0, ss, reply, final, i);
    CourseGrows(q, c0, ss, 0, i);
    assert Clock(q.world, q.begun) <= Clock(q.world, ss[i].v.t);
    ForcedModelEndsOpen(q, c0, ss, reply, final, i);
  }

  lemma SecondAttempt(q: Request, c0: Core, ss: seq<State>, i: nat)
    requires Proper(q, c0) && q.cfg.Some? && Course(q, c0, ss) && i < |ss| && ss[i].v.attempt + 1 >= ss[i].v.attempts
    ensures i > 0 && ss[i - 1].v.model == ss[i].v.model
  {
    CourseIsSound(q, c0, ss, i);
    assert Leads(q, ss, i - 1);
    NextAttempt(q, ss[i - 1]);
  }

  // ---------- whole requests ----------

  /** A world in which nobody else acts, no time passes, and these are the answers. */
  function Quietly(now: int, first: Answer, others: Answer): World {
    World((n: nat) => now, (n: nat) => if n == 0 then first else others, (n: nat) => true, (n: nat) => 0, (n: nat) => [])
  }

  function OneModel(id: string, p: Provider): Config {
    Config(Fallback, [Entry(id, p.id, 1)], [p])
  }

  /** The model's breaker has been Open for more than a cooldown. */
  function CooledDown(id: string, now: int): Core {
    Core(0, "", map[], map[id := Cell(Breaker(Open, now - COOLDOWN - 1), FRESH)])
  }

  /** A request that is routed to the model then, and the strategy as routing leaves it. */
  function Probing(id: string, p: Provider, streaming: bool, session: string, texts: Sse.Texts, w: World): Request {
    Request(Some(OneModel(id, p)), id, p, streaming, session, texts, w, 1)
  }

  function Probed(id: string, p: Provider, session: string, now: int): Core {
    Step(OneModel(id, p), CooledDown(id, now), Event(now, Action.Route(session, 0)))
  }

  lemma ProbeBegins(id: string, p: Provider, streaming: bool, session: string, texts: Sse.Texts, now: int, first: Answer, others: Answer)
    requires id != ""
    ensures var w := Quietly(now, first, others);
            && RouteChoice(OneModel(id, p), CooledDown(id, now), session, 0, now) == Some(Choice(id, p))
            && Proper(Probing(id, p, streaming, session, texts, w), Probed(id, p, session, now))
            && InState(Probed(id, p, session, now), id, HalfOpen)
            && (forall n: nat :: Quiet(w, n))
  {
    var cfg, c := OneModel(id, p), CooledDown(id, now);
    assert ProviderIn(cfg.providers, p.id) == Some(p) && ProviderFor(cfg.models, cfg.providers, id) == Some(p);
    FallbackTakesFirst(cfg, c, session, 0, now, 0);
    SelectedOpenModelIsProbed(cfg, c, session, 0, now);
    assert cfg.models[0] in cfg.models;
  }

  /** The request ends with this reply, and the model's breaker is then in this state. */
  ghost predicate EndsWith(q: Request, c0: Core, reply: Reply, id: string, b: BreakerState) {
    exists ss, final :: Ends(q, c0, ss, reply, final) && InState(final.core, id, b)
  }

  lemma EndSeen(q: Request, c0: Core, ss: seq<State>, reply: Reply, final: State, id: string, b: BreakerState)
    requires Ends(q, c0, ss, reply, final) && InState(final.core, id, b)
    ensures EndsWith(q, c0, reply, id, b)
  {
  }

  lemma TwoPasses(q: Request, c0: Core, s1: State, reply: Reply, final: State)
    requires First(q, c0).v.attempt < First(q, c0).v.attempts && Pass(q, First(q, c0)) == Next(s1)
    requires s1.v.attempt < s1.v.attempts && Pass(q, s1) == Done(reply, final)
    ensures Ends(q, c0, [First(q, c0)] + [s1], reply, final)
  {
    CourseGoesOn(q, c0, [First(q, c0)], s1);
  }

  /** The second of two attempts, answered by a stream without a line, is the last. */
  lemma EmptyStreamAtLast(q: Request, s: State)
    requires q.streaming && s.v.attempt == 1 && s.v.attempts == 2
    requires Gate(q.world, |s.v.dials|) && EmptyStream(AnswerTo(q.world, |s.v.dials|))
    ensures Pass(q, s).Done? && Pass(q, s).reply == Streamed(true)
  {
    EmptyStreamFails(q.texts, s.v.prov.holdTimeout, 2, 2, AnswerTo(q.world, |s.v.dials|));
  }

  /** A probe whose answer cannot be read closes the breaker. */
  lemma UnreadableProbeCloses(id: string, p: Provider, session: string, texts: Sse.Texts, now: int, a: Answer)
    requires id != "" && a.Success? && !a.readOK
    ensures EndsWith(Probing(id, p, false, session, texts, Quietly(now, a, a)), Probed(id, p, session, now), ReadFailed, id, Closed)
  {
    var q, c0 := Probing(id, p, false, session, texts, Quietly(now, a, a)), Probed(id, p, session, now);
    ProbeBegins(id, p, false, session, texts, now, a, a);
    var ss, final := [First(q, c0)], Pass(q, First(q, c0)).s;
    ProbeVerdict(q, c0, ss, ReadFailed, final, 0);
    EndSeen(q, c0, ss, ReadFailed, final, id, Closed);
  }

  lemma TransportRetried(q: Request, s: State)
    requires Gate(q.world, |s.v.dials|) && AnswerTo(q.world, |s.v.dials|) == TransportError(true) && s.v.attempt + 1 < s.v.attempts
    ensures Pass(q, s) == Next(JustDialled(q, s))
  {
  }

  lemma LateVerdict(q: Request, c0: Core, s1: State, final: State)
    requires Proper(q, c0) && q.cfg.Some? && InState(c0, q.model, HalfOpen) && forall n: nat :: Quiet(q.world, n)
    requires q.streaming && AnswerTo(q.world, 0).TransportError? && s1 == JustDialled(q, First(q, c0))
    requires Ends(q, c0, [First(q, c0)] + [s1], Streamed(true), final)
    ensures InState(final.core, q.model, Closed)
  {
    var ss := [First(q, c0)] + [s1];
    LastPass(q, c0, ss, Streamed(true), final);
    RepliesAreEarned(q, c0, ss, Streamed(true), final);
    ProbeVerdict(q, c0, ss, Streamed(true), final, 0);
    assert !ForcedBetween(q, ss, 0, 1);
  }

  /** So does one whose transport fails and whose last attempt is answered by a stream without a line. */
  lemma LateEmptyStreamCloses(id: string, p: Provider, session: string, texts: Sse.Texts, now: int, empty: Answer)
    requires id != "" && p.maxRetries <= 1 && EmptyStream(empty)
    ensures EndsWith(Probing(id, p, true, session, texts, Quietly(now, TransportError(true), empty)), Probed(id, p, session, now),
                     Streamed(true), id, Closed)
  {
    var q, c0 := Probing(id, p, true, session, texts, Quietly(now, TransportError(true), empty)), Probed(id, p, session, now);
    ProbeBegins(id, p, true, session, texts, now, TransportError(true), empty);
    var s0 := First(q, c0);
    var s1 := JustDialled(q, s0);
    TransportRetried(q, s0);
    EmptyStreamAtLast(q, s1);
    var final := Pass(q, s1).s;
    TwoPasses(q, c0, s1, Streamed(true), final);
    LateVerdict(q, c0, s1, final);
    EndSeen(q, c0, [s0] + [s1], Streamed(true), final, id, Closed);
  }

  /** But one whose streams are all without a line does not: its first attempt forces the breaker open. */
  lemma EmptyStreamProbeEndsOpen(id: string, p: Provider, session: string, texts: Sse.Texts, now: int, empty: Answer)
    requires id != "" && p.maxRetries <= 1 && EmptyStream(empty)
    ensures EndsWith(Probing(id, p, true, session, texts, Quietly(now, empty, empty)), Probed(id, p, session, now), Streamed(true), id, Open)
  {
    var q, c0 := Probing(id, p, true, session, texts, Quietly(now, empty, empty)), Probed(id, p, session, now);
    ProbeBegins(id, p, true, session, texts, now, empty, empty);
    var s0 := First(q, c0);
    EmptyStreamFails(texts, p.holdTimeout, 1, 2, empty);
    PassForces(q, s0);
    var s1 := LeaveModel(q, Leaving(q, s0));
    OnlyModelStays(id, p, q, Leaving(q, s0));
    EmptyStreamAtLast(q, s1);
    var final := Pass(q, s1).s;
    TwoPasses(q, c0, s1, Streamed(true), final);
    EmptyStreamsEndOpen(q, c0, [s0] + [s1], Streamed(true), final, 0);
    EndSeen(q, c0, [s0] + [s1], Streamed(true), final, id, Open);
  }

  /** With one model, there is no other to move to. */
  lemma OnlyModelStays(id: string, p: Provider, q: Request, d: State)
    requires q.cfg == Some(OneModel(id, p)) && d.v.model == id
    ensures LeaveModel(q, d).v == d.v.(t := d.v.t + 2)
  {
    var forced := Act(q, d, Action.Force(id));
    if ChoiceNow(q, forced).Some? {
      RouteSelectsRoutable(OneModel(id, p), Found(q.cfg.value, forced.core, q.world, forced.v.t), q.session,
                           Draw(q.world, forced.v.t + 1), Clock(q.world, forced.v.t + 1));
    }
  }
}
