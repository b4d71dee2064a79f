/** What every request through forwardChat keeps, and what it amounts to when it ends
    (internal/modelproxy/proxy.go). */
module Served {
  import opened Text
  import opened Breakers
  import opened Router
  import opened Legs
  import opened Upstream
  import opened Dials
  import opened Serving
  import Sse

  /** A request as handleChat makes it: a strategy request starts on a model of its strategy. */
  ghost predicate Proper(q: Request, c0: Core) {
    && Orderly(q.world)
    && (q.cfg.Some? ==>
          && c0.cells.Keys == ModelIds(q.cfg.value) && q.model in ModelIds(q.cfg.value)
          && (q.cfg.value.kind.Single? ==> q.model == q.cfg.value.models[0].id))
  }

  function BudgetOf(q: Request): nat {
    Max(q.provider.maxRetries + 1, 2)
  }

  function LegsOf(s: State): seq<Leg> {
    AllLegs(s.left, s.v.model, s.start)
  }

  function Ours(q: Request): set<string> {
    if q.cfg.None? then {q.model} else ModelIds(q.cfg.value)
  }

  // ---------- the strategy's side ----------

  /** The strategy is where the others and this request's own events took it. */
  ghost predicate Logged(q: Request, c0: Core, s: State)
    requires q.cfg.Some?
  {
    && s.v.t == q.begun + |s.mine| && s.core.cells.Keys == ModelIds(q.cfg.value)
    && s.core == Run(q.cfg.value, c0, Woven(q.world, q.begun, s.mine))
  }

  ghost predicate Tracked(q: Request, c0: Core, s: State) {
    if q.cfg.None? then s.left == [] && s.mine == [] && s.v.t == q.begun && s.start <= Clock(q.world, s.v.t)
    else
      && Logged(q, c0, s) && NoRecords(s.mine)
      && OnCourse(q.cfg.value, s.core, s.left, s.v.model, s.start, Clock(q.world, q.begun), Clock(q.world, s.v.t))
  }

  lemma StepKeepsKeys(cfg: Config, c: Core, e: Event)
    ensures Step(cfg, c, e).cells.Keys == c.cells.Keys
  {
  }

  lemma {:induction false} RunKeepsKeys(cfg: Config, c: Core, evs: seq<Event>)
    ensures Run(cfg, c, evs).cells.Keys == c.cells.Keys
    decreases |evs|
  {
    if evs != [] {
      RunKeepsKeys(cfg, c, evs[..|evs| - 1]);
      StepKeepsKeys(cfg, Run(cfg, c, evs[..|evs| - 1]), evs[|evs| - 1]);
    }
  }

  lemma RunOneMore(cfg: Config, c: Core, evs: seq<Event>, others: seq<Event>, e: Event)
    ensures Run(cfg, c, evs + others + [e]) == Step(cfg, Run(cfg, Run(cfg, c, evs), others), e)
  {
    RunAppend(cfg, c, evs, others);
    assert (evs + others + [e])[..|evs + others|] == evs + others;
  }

  lemma WovenOneMore(w: World, t0: nat, mine: seq<Event>, e: Event)
    ensures Woven(w, t0, mine + [e]) == Woven(w, t0, mine) + OthersAt(w, t0 + |mine|) + [e]
  {
    assert (mine + [e])[..|mine|] == mine;
  }

  lemma LogGrows(cfg: Config, c0: Core, w: World, t0: nat, mine: seq<Event>, e: Event)
    ensures Run(cfg, c0, Woven(w, t0, mine + [e])) ==
              Step(cfg, Found(cfg, Run(cfg, c0, Woven(w, t0, mine)), w, t0 + |mine|), e)
  {
    WovenOneMore(w, t0, mine, e);
    RunOneMore(cfg, c0, Woven(w, t0, mine), OthersAt(w, t0 + |mine|), e);
  }

  lemma ActKeepsKeys(q: Request, s: State, a: Action)
    requires q.cfg.Some?
    ensures Act(q, s, a).core.cells.Keys == s.core.cells.Keys
  {
    RunKeepsKeys(q.cfg.value, s.core, OthersAt(q.world, s.v.t));
    StepKeepsKeys(q.cfg.value, Found(q.cfg.value, s.core, q.world, s.v.t), Event(Clock(q.world, s.v.t + 1), a));
  }

  /** A section keeps the log, and every quarantine that began before it. */
  lemma ActLogs(q: Request, c0: Core, s: State, a: Action)
    requires q.cfg.Some? && Logged(q, c0, s)
    ensures Logged(q, c0, Act(q, s, a))
  {
    ActKeepsKeys(q, s, a);
    LogGrows(q.cfg.value, c0, q.world, q.begun, s.mine, Event(Clock(q.world, s.v.t + 1), a));
  }

  lemma FoundKeeps(q: Request, s: State)
    requires q.cfg.Some? && Orderly(q.world)
    ensures Keeps(s.core, Found(q.cfg.value, s.core, q.world, s.v.t), Clock(q.world, s.v.t), Clock(q.world, s.v.t + 1))
  {
    RunKeeps(q.cfg.value, s.core, OthersAt(q.world, s.v.t), Clock(q.world, s.v.t), Clock(q.world, s.v.t + 1));
  }

  lemma ActKeeps(q: Request, s: State, a: Action)
    requires q.cfg.Some? && Orderly(q.world)
    ensures Keeps(s.core, Act(q, s, a).core, Clock(q.world, s.v.t), Clock(q.world, s.v.t + 1))
  {
    var now := Clock(q.world, s.v.t + 1);
    var c := Found(q.cfg.value, s.core, q.world, s.v.t);
    FoundKeeps(q, s);
    StepKeeps(q.cfg.value, c, Event(now, a));
    KeepsOn(s.core, c, Act(q, s, a).core, Clock(q.world, s.v.t), now, now);
  }

  lemma ForcedIsKept(q: Request, c0: Core, s: State)
    requires q.cfg.Some? && Orderly(q.world) && Logged(q, c0, s) && s.v.model in ModelIds(q.cfg.value)
    ensures var forced := Act(q, s, Action.Force(s.v.model));
            Kept(forced.core, s.v.model, Clock(q.world, forced.v.t), Clock(q.world, forced.v.t))
  {
    RunKeepsKeys(q.cfg.value, s.core, OthersAt(q.world, s.v.t));
  }

  /** What routing again finds was never quarantined. */
  lemma ChosenIsNotKept(q: Request, c0: Core, s: State, since: int)
    requires q.cfg.Some? && Orderly(q.world) && ChoiceNow(q, s).Some?
    ensures ChoiceNow(q, s).value.model in ModelIds(q.cfg.value)
    ensures q.cfg.value.kind.Single? ==> ChoiceNow(q, s).value.model == q.cfg.value.models[0].id
    ensures !q.cfg.value.kind.Single? && since <= Clock(q.world, s.v.t) && Kept(s.core, ChoiceNow(q, s).value.model, since, Clock(q.world, s.v.t)) ==>
              Clock(q.world, s.v.t + 1) > since + COOLDOWN
  {
    var cfg, w, now := q.cfg.value, q.world, Clock(q.world, s.v.t + 1);
    var c, m := Found(cfg, s.core, w, s.v.t), ChoiceNow(q, s).value.model;
    RouteSelectsRoutable(cfg, c, q.session, Draw(w, s.v.t + 1), now);
    FoundKeeps(q, s);
    if !cfg.kind.Single? && since <= Clock(w, s.v.t) && Kept(s.core, m, since, Clock(w, s.v.t)) {
      assert Kept(c, m, since, now);
    }
  }

  lemma ActTracks(q: Request, c0: Core, s: State, a: Action)
    requires q.cfg.Some? && Orderly(q.world) && Tracked(q, c0, s) && !a.Record?
    ensures Tracked(q, c0, Act(q, s, a))
  {
    ActLogs(q, c0, s, a);
    ActKeeps(q, s, a);
    StaysOnCourse(q.cfg.value, s.core, Act(q, s, a).core, s.left, s.v.model, s.start, Clock(q.world, q.begun),
                  Clock(q.world, s.v.t), Clock(q.world, s.v.t + 1));
  }

  /** Leaving a model, or failing to. */
  lemma LeavingTracks(q: Request, c0: Core, s: State)
    requires q.cfg.Some? && Orderly(q.world) && Tracked(q, c0, s)
    ensures var s' := LeaveModel(q, s);
            && Tracked(q, c0, s') && s.v.t < s'.v.t
            && (s'.left == s.left ==> s'.v.model == s.v.model && s'.start == s.start && s'.v == s.v.(t := s'.v.t))
            && (s'.left != s.left ==>
                  && LegClosed(s.left, s'.left, s.v.model, s.start, Clock(q.world, s.v.t)) && s'.start == Clock(q.world, s'.v.t)
                  && s'.v.attempt == 0 && s'.v.attempts == s.v.attempts && s'.v.leg == s.v.leg + 1)
            && s'.v.dials == s.v.dials && s'.v.last == s.v.last
  {
    assert LegsOf(s)[|s.left|].model == s.v.model;
    var forced := Act(q, s, Action.Force(s.v.model));
    ActTracks(q, c0, s, Action.Force(s.v.model));
    ForcedIsKept(q, c0, s);
    var choice, routed := ChoiceNow(q, forced), RouteNow(q, forced);
    ActTracks(q, c0, forced, Action.Route(q.session, Draw(q.world, forced.v.t + 1)));
    if choice.Some? && choice.value.model != s.v.model {
      MovingTracks(q, c0, s, forced, routed, choice.value);
    }
  }

  /** A model left before is chosen again only after its cooldown. */
  lemma LeftAreCooled(q: Request, c0: Core, s: State, next: Choice)
    requires q.cfg.Some? && Orderly(q.world) && Tracked(q, c0, s) && ChoiceNow(q, s) == Some(next) && !q.cfg.value.kind.Single?
    ensures forall i :: 0 <= i < |s.left| && s.left[i].model == next.model ==> Clock(q.world, s.v.t + 1) > s.left[i].end + COOLDOWN
  {
    forall i | 0 <= i < |s.left| && s.left[i].model == next.model ensures Clock(q.world, s.v.t + 1) > s.left[i].end + COOLDOWN {
      ChosenIsNotKept(q, c0, s, s.left[i].end);
    }
  }

  lemma ForcedStaysKept(q: Request, forced: State, model: string)
    requires q.cfg.Some? && Orderly(q.world) && Kept(forced.core, model, Clock(q.world, forced.v.t), Clock(q.world, forced.v.t))
    ensures var routed := RouteNow(q, forced);
            Kept(routed.core, model, Clock(q.world, forced.v.t), Clock(q.world, routed.v.t))
  {
    ActKeeps(q, forced, Action.Route(q.session, Draw(q.world, forced.v.t + 1)));
  }

  lemma MovingTracks(q: Request, c0: Core, s: State, forced: State, routed: State, next: Choice)
    requires q.cfg.Some? && Orderly(q.world) && s.start <= Clock(q.world, s.v.t)
    requires forced == Act(q, s, Action.Force(s.v.model)) && routed == RouteNow(q, forced)
    requires ChoiceNow(q, forced) == Some(next) && next.model != s.v.model
    requires Tracked(q, c0, forced) && Tracked(q, c0, routed)
    requires Kept(forced.core, s.v.model, Clock(q.world, forced.v.t), Clock(q.world, forced.v.t))
    ensures Tracked(q, c0, MoveTo(q, s, routed, next, forced.v.t))
  {
    var w := q.world;
    ChosenIsNotKept(q, c0, forced, Clock(w, forced.v.t));
    LeftAreCooled(q, c0, forced, next);
    ForcedStaysKept(q, forced, s.v.model);
    assert Clock(w, s.v.t) <= Clock(w, forced.v.t) <= Clock(w, routed.v.t);
    SwitchesOnCourse(q.cfg.value, routed.core, s.left, s.v.model, s.start, Clock(w, q.begun), Clock(w, forced.v.t), Clock(w, routed.v.t), next.model);
  }

  // ---------- the dials' side ----------

  /** Every dial goes to one of these models, and the last one was answered so. */
  ghost predicate Answered(dials: seq<Dial>, w: World, ours: set<string>, last: Answer) {
    && (forall i :: 0 <= i < |dials| ==> dials[i].model in ours)
    && (|dials| > 0 ==> last == AnswerTo(w, |dials| - 1))
  }

  /** The dials so far, with the attempts on the leg under way. */
  ghost predicate Dialling(q: Request, s: State) {
    && s.v.leg == |s.left| && s.v.attempt <= BudgetOf(q)
    && Counted(s.v.dials, |s.left|, BudgetOf(q), s.v.attempt)
    && Follows(s.v.dials, LegsOf(s), q.model, BudgetOf(q))
    && Answered(s.v.dials, q.world, Ours(q), s.v.last)
  }

  /** The only attempt of a direct request without retries went into a stream that failed. */
  ghost predicate Spent(q: Request, s: State) {
    && q.provider.maxRetries == 0 && s.v.attempt == s.v.attempts == |s.v.dials| == 1
    && q.streaming && s.v.last.Success? && Piped(q.texts, s.v.prov.holdTimeout, 1, 1, s.v.last).failed
  }

  ghost predicate Sound(q: Request, c0: Core, s: State) {
    && Tracked(q, c0, s) && Dialling(q, s)
    && (forall i :: 0 <= i < |s.v.dials| ==> s.v.dials[i].at <= Clock(q.world, s.v.t))
    && (s.v.attempts == q.provider.maxRetries + 1 || s.v.attempts == BudgetOf(q))
    && (s.v.attempt == 0 || s.v.attempt <= s.v.attempts)
    && (q.cfg.None? && s.v.attempts > 0 && s.v.attempt >= s.v.attempts ==> Spent(q, s))
    && (q.cfg.Some? ==> s.v.attempts == BudgetOf(q) && s.v.attempt < s.v.attempts)
  }

  lemma FirstIsSound(q: Request, c0: Core)
    requires Proper(q, c0)
    ensures Sound(q, c0, First(q, c0))
  {
    var s := First(q, c0);
    forall i, j ensures InOrder(s.v.dials, i, j, BudgetOf(q)) {
    }
    if q.cfg.Some? {
      assert LegsOf(s) == [Leg(q.model, s.start, s.start)];
      if q.cfg.value.kind.Single? {
        var e :| e in q.cfg.value.models;
      }
    }
  }

  function JustDialled(q: Request, s: State): State {
    s.(v := Dialled(q.world, s.v))
  }

  lemma AnsweredOneMore(dials: seq<Dial>, w: World, ours: set<string>, last: Answer, d: Dial)
    requires Answered(dials, w, ours, last) && d.model in ours
    ensures Answered(dials + [d], w, ours, AnswerTo(w, |dials|))
  {
  }

  lemma OursIsTracked(q: Request, c0: Core, s: State)
    requires Tracked(q, c0, s) && Dialling(q, s)
    ensures s.v.model in Ours(q) && s.start <= Clock(q.world, s.v.t)
  {
    assert LegsOf(s)[|s.left|].model == s.v.model;
    if q.cfg.None? {
      assert LegsOf(s)[0].model == q.model;
    }
  }

  lemma OneMoreDial(q: Request, s: State)
    requires Dialling(q, s) && s.v.attempt < BudgetOf(q)
    requires s.v.model in Ours(q) && s.start <= Clock(q.world, s.v.t)
    ensures Dialling(q, JustDialled(q, s))
  {
    var d := Dial(s.v.model, s.v.prov, Clock(q.world, s.v.t), s.v.leg);
    assert LegsOf(s)[|s.left|] == Leg(s.v.model, s.start, s.start);
    CountedOneMore(s.v.dials, |s.left|, BudgetOf(q), s.v.attempt, d);
    FollowsOneMore(s.v.dials, LegsOf(s), q.model, BudgetOf(q), s.v.attempt, d);
    AnsweredOneMore(s.v.dials, q.world, Ours(q), s.v.last, d);
  }

  lemma DialledKeeps(q: Request, c0: Core, s: State)
    requires Sound(q, c0, s) && s.v.attempt < s.v.attempts
    ensures var d := JustDialled(q, s);
            && Tracked(q, c0, d) && Dialling(q, d)
            && (forall i :: 0 <= i < |d.v.dials| ==> d.v.dials[i].at <= Clock(q.world, d.v.t))
  {
    OursIsTracked(q, c0, s);
    OneMoreDial(q, s);
  }

  /** The loop goes on with the same model: only the budget, the gate's flag and the strategy differ. */
  lemma StayingIsSound(q: Request, c0: Core, s: State, s': State)
    requires Orderly(q.world) && Sound(q, c0, s) && s.v.attempt < s.v.attempts
    requires var d := JustDialled(q, s);
             && s'.left == d.left && s'.start == d.start && Tracked(q, c0, s') && d.v.t <= s'.v.t
             && s'.v == d.v.(t := s'.v.t, attempts := s'.v.attempts, skipSaturationWait := s'.v.skipSaturationWait)
             && (s'.v.attempts == d.v.attempts || (d.v.attempts < 2 && s'.v.attempts == 2))
             && (d.v.attempt < s'.v.attempts || (q.cfg.None? && Spent(q, d)))
    ensures Sound(q, c0, s')
  {
    DialledKeeps(q, c0, s);
    assert Clock(q.world, s.v.t) <= Clock(q.world, s'.v.t);
  }

  lemma MovedDialling(q: Request, d: State, s': State)
    requires Dialling(q, d) && d.v.attempt > 0 && LegClosed(d.left, s'.left, d.v.model, d.start, Clock(q.world, d.v.t))
    requires forall i :: 0 <= i < |d.v.dials| ==> d.v.dials[i].at <= Clock(q.world, d.v.t)
    requires s'.v.dials == d.v.dials && s'.v.last == d.v.last && s'.v.attempt == 0 && s'.v.leg == d.v.leg + 1
    ensures Dialling(q, s')
  {
    CountedLeg(d.v.dials, |d.left|, BudgetOf(q), d.v.attempt);
    FollowsSwitch(d.v.dials, d.left, d.v.model, d.start, q.model, BudgetOf(q), d.v.attempt, s'.left, s'.v.model, Clock(q.world, d.v.t), s'.start);
  }

  /** The loop goes on with another model and a full budget. */
  lemma MovingIsSound(q: Request, c0: Core, s: State, s': State)
    requires Orderly(q.world) && Sound(q, c0, s) && s.v.attempt < s.v.attempts && q.cfg.Some?
    requires LegClosed(s.left, s'.left, s.v.model, s.start, Clock(q.world, s.v.t)) && Tracked(q, c0, s') && s.v.t <= s'.v.t
    requires s'.v.dials == Dialled(q.world, s.v).dials && s'.v.last == Dialled(q.world, s.v).last
    requires s'.v.attempt == 0 && s'.v.attempts == s.v.attempts && s'.v.leg == s.v.leg + 1
    ensures Sound(q, c0, s')
  {
    DialledKeeps(q, c0, s);
    MovedDialling(q, JustDialled(q, s), s');
    assert Clock(q.world, s.v.t) <= Clock(q.world, s'.v.t);
  }

  /** Re-routes use up legs, a lifted budget is lifted once, and otherwise attempts run out. */
  ghost predicate Progress(s: State, s': State) {
    || |s'.left| == |s.left| + 1
    || (|s'.left| == |s.left| && s.v.attempts < 2 == s'.v.attempts)
    || (|s'.left| == |s.left| && s'.v.attempts == s.v.attempts && s'.v.attempt == s.v.attempt + 1)
  }

  /** A pass that leaves the model, or tries to, from a state d of its own. */
  lemma LeavingIsSound(q: Request, c0: Core, s: State, d: State)
    requires Orderly(q.world) && Sound(q, c0, s) && s.v.attempt + 1 < s.v.attempts && q.cfg.Some?
    requires Tracked(q, c0, d) && d.left == s.left && d.start == s.start && s.v.t <= d.v.t
    requires d.v == Dialled(q.world, s.v).(t := d.v.t, skipSaturationWait := d.v.skipSaturationWait)
    ensures Sound(q, c0, LeaveModel(q, d)) && Progress(s, LeaveModel(q, d))
  {
    LeavingTracks(q, c0, d);
    var s' := LeaveModel(q, d);
    if s'.left == d.left {
      StayingIsSound(q, c0, s, s');
    } else {
      assert Clock(q.world, s.v.t) <= Clock(q.world, d.v.t);
      MovingIsSound(q, c0, s, s');
    }
  }

  lemma PassIsSound(q: Request, c0: Core, s: State)
    requires Orderly(q.world) && Sound(q, c0, s) && s.v.attempt < s.v.attempts && Pass(q, s).Next?
    ensures Sound(q, c0, Pass(q, s).s) && Progress(s, Pass(q, s).s)
  {
    DialledKeeps(q, c0, s);
    var a, d := AnswerTo(q.world, |s.v.dials|), JustDialled(q, s);
    match a
    case TransportError(_) => StayingIsSound(q, c0, s, d);
    case HttpError(_, _, _) => HttpErrorIsSound(q, c0, s, a);
    case Success(_, _, _, _, _) => StreamIsSound(q, c0, s, a);
  }

  lemma HttpErrorIsSound(q: Request, c0: Core, s: State, a: Answer)
    requires Orderly(q.world) && Sound(q, c0, s) && s.v.attempt < s.v.attempts
    requires a.HttpError? && OnHttpError(q, JustDialled(q, s), a).Next?
    ensures Sound(q, c0, OnHttpError(q, JustDialled(q, s), a).s) && Progress(s, OnHttpError(q, JustDialled(q, s), a).s)
  {
    DialledKeeps(q, c0, s);
    var d := JustDialled(q, s);
    var attempts := if Lifts(a) then Lifted(d.v.attempts) else d.v.attempts;
    var again := d.(v := d.v.(attempts := attempts, skipSaturationWait := IsSaturation(a)));
    if q.cfg.Some? && Reroutes(a) {
      LeavingIsSound(q, c0, s, again);
    } else {
      StayingIsSound(q, c0, s, again);
    }
  }

  lemma StreamIsSound(q: Request, c0: Core, s: State, a: Answer)
    requires Orderly(q.world) && Sound(q, c0, s) && s.v.attempt < s.v.attempts
    requires a.Success? && a == AnswerTo(q.world, |s.v.dials|) && q.streaming && OnStream(q, JustDialled(q, s), a).Next?
    ensures Sound(q, c0, OnStream(q, JustDialled(q, s), a).s) && Progress(s, OnStream(q, JustDialled(q, s), a).s)
  {
    DialledKeeps(q, c0, s);
    var d := JustDialled(q, s);
    var r := Piped(q.texts, d.v.prov.holdTimeout, d.v.attempt, d.v.attempts, a);
    if r.retryEarly {
      EarlyRetryIsAllowed(q.texts, d.v.prov.holdTimeout, d.v.attempt, d.v.attempts, a);
      StayingIsSound(q, c0, s, d.(v := d.v.(attempts := Lifted(d.v.attempts))));
    } else if q.cfg.Some? {
      var checked := Act(q, d, Action.Check(d.v.model));
      ActTracks(q, c0, d, Action.Check(d.v.model));
      LeavingIsSound(q, c0, s, checked);
    } else {
      DirectStreamIsSound(q, c0, s);
    }
  }

  /** A direct request has one leg, so a failed stream on its only attempt was its only dial. */
  lemma DirectStreamIsSound(q: Request, c0: Core, s: State)
    requires Orderly(q.world) && Sound(q, c0, s) && s.v.attempt < s.v.attempts && q.cfg.None? && q.streaming
    requires var d := JustDialled(q, s);
             && d.v.last.Success? && Piped(q.texts, d.v.prov.holdTimeout, d.v.attempt, d.v.attempts, d.v.last).failed
             && (d.v.attempt < d.v.attempts || d.v.attempt == d.v.attempts == 1)
    ensures Sound(q, c0, JustDialled(q, s)) && Progress(s, JustDialled(q, s))
  {
    DialledKeeps(q, c0, s);
    StayingIsSound(q, c0, s, JustDialled(q, s));
  }

  /** The relay aborts for a retry only when one is allowed. */
  lemma EarlyRetryIsAllowed(texts: Sse.Texts, holdTimeout: int, attempt: int, attempts: int, a: Answer)
    requires a.Success? && Piped(texts, holdTimeout, attempt, attempts, a).retryEarly
    ensures attempt < attempts || (attempt == 1 && attempts <= 1)
  {
    var k := Sse.EarlyRetryMeansNoContent(
      Sse.Params(attempt < attempts, attempt == 1 && attempts <= 1, holdTimeout, texts), Sse.Feed(a.scanned, a.eofAt, a.ticks));
  }

  lemma {:induction false} CourseIsSound(q: Request, c0: Core, ss: seq<State>, i: nat)
    requires Proper(q, c0) && Course(q, c0, ss) && i < |ss|
    ensures Sound(q, c0, ss[i])
  {
    if i == 0 {
      FirstIsSound(q, c0);
    } else {
      CourseIsSound(q, c0, ss, i - 1);
      assert Leads(q, ss, i - 1);
      PassIsSound(q, c0, ss[i - 1]);
    }
  }

  // ---------- the end of a request ----------

  /** Did the request reach the point where its outcome is recorded? */
  predicate Counts(reply: Reply) {
    !(reply.NoModel? || reply.Cancelled? || reply.NotBuilt?)
  }

  /** The error flag a reply is recorded with. */
  predicate RecordedAsFailure(reply: Reply) {
    reply.TransportFailed? || reply.Refused?
  }

  /** Is the breaker checked after the outcome is recorded? */
  predicate Checked(reply: Reply) {
    RecordedAsFailure(reply) || reply == Streamed(true) || reply.ReadFailed?
  }

  /** The tokens it is recorded with. */
  function TokensFor(q: Request, d: State, reply: Reply): int {
    match reply
    case Answered => if d.v.last.Success? then d.v.last.tokens else 0
    case Streamed(_) =>
      if d.v.last.Success? then TokensOf(Piped(q.texts, d.v.prov.holdTimeout, d.v.attempt, d.v.attempts, d.v.last).usage) else 0
    case _ => 0
  }

  /** The state in which the answer to the last dial finds the request: a fault or a missing model has
      lifted its budget. */
  function Answering(q: Request, s: State): State {
    var d := JustDialled(q, s);
    if Lifts(d.v.last) then d.(v := d.v.(attempts := Lifted(d.v.attempts))) else d
  }

  /** How a pass ends the request: before the dial, or by recording the outcome of its answer. */
  lemma DoneIs(q: Request, s: State)
    requires Pass(q, s).Done?
    ensures var Done(reply, final), d := Pass(q, s), Answering(q, s);
            && !reply.NoModel? && !reply.Exhausted?
            && (Counts(reply) ==> final == Settle(q, d, TokensFor(q, d, reply), RecordedAsFailure(reply), Checked(reply)))
            && (!Counts(reply) ==> final == s)
  {
  }

  /** Where these events record the outcome, if it is followed by a check or not. */
  function RecordAt(mine: seq<Event>, checked: bool): int {
    |mine| - if checked then 2 else 1
  }

  /** The request's events end in the record of its only outcome, for this model and with this
      error flag, and in the check of that model if there is one. */
  ghost predicate Settled(mine: seq<Event>, model: string, failed: bool, checked: bool) {
    var k := RecordAt(mine, checked);
    && k >= 0 && NoRecords(mine[..k])
    && mine[k].action.Record? && mine[k].action.id == model && mine[k].action.o.failed == failed
    && (checked ==> mine[k + 1].action == Action.Check(model))
  }

  lemma SettleIsLogged(q: Request, c0: Core, s: State, tokens: int, failed: bool, check: bool)
    requires q.cfg.Some? && Logged(q, c0, s) && NoRecords(s.mine)
    ensures var final := Settle(q, s, tokens, failed, check);
            && Logged(q, c0, final) && Settled(final.mine, s.v.model, failed, check)
            && final == s.(v := s.v.(t := final.v.t), core := final.core, mine := final.mine)
  {
    var record := Action.Record(s.v.model, Outcome(Elapsed(q, s.v.t), tokens, failed));
    var recorded := Act(q, s, record);
    ActLogs(q, c0, s, record);
    ActLogs(q, c0, recorded, Action.Check(s.v.model));
    assert recorded.mine[..|s.mine|] == s.mine;
    assert Act(q, recorded, Action.Check(s.v.model)).mine[..|s.mine|] == s.mine;
  }

  /** What is left when the request is over: its dials, on its legs, and its events on the strategy. */
  ghost predicate Over(q: Request, c0: Core, reply: Reply, final: State) {
    && Dialling(q, final) && (forall i :: 0 <= i < |final.v.dials| ==> final.v.dials[i].at <= Clock(q.world, final.v.t))
    && (final.v.attempts == q.provider.maxRetries + 1 || final.v.attempts == BudgetOf(q))
    && (if q.cfg.None? then final.left == [] && final.mine == []
        else
          && final.v.attempts == BudgetOf(q)
          && Logged(q, c0, final) && Spaced(LegsOf(final))
          && Within(LegsOf(final), ModelIds(q.cfg.value), Clock(q.world, q.begun), Clock(q.world, final.v.t))
          && if Counts(reply) then Settled(final.mine, final.v.model, RecordedAsFailure(reply), Checked(reply)) else NoRecords(final.mine))
  }

  lemma AnsweringKeeps(q: Request, c0: Core, s: State)
    requires Sound(q, c0, s) && s.v.attempt < s.v.attempts
    ensures var d := Answering(q, s);
            && Tracked(q, c0, d) && Dialling(q, d)
            && (forall i :: 0 <= i < |d.v.dials| ==> d.v.dials[i].at <= Clock(q.world, d.v.t))
            && (d.v.attempts == q.provider.maxRetries + 1 || d.v.attempts == BudgetOf(q))
            && (q.cfg.Some? ==> d.v.attempts == BudgetOf(q))
  {
    DialledKeeps(q, c0, s);
  }

  lemma AnsweringIsOver(q: Request, c0: Core, s: State, tokens: int, reply: Reply)
    requires Orderly(q.world) && Sound(q, c0, s) && s.v.attempt < s.v.attempts && Counts(reply)
    ensures Over(q, c0, reply, Settle(q, Answering(q, s), tokens, RecordedAsFailure(reply), Checked(reply)))
  {
    AnsweringKeeps(q, c0, s);
    if q.cfg.Some? {
      SettlingIsOver(q, c0, Answering(q, s), tokens, reply);
    }
  }

  lemma SettlingIsOver(q: Request, c0: Core, d: State, tokens: int, reply: Reply)
    requires Orderly(q.world) && q.cfg.Some? && Counts(reply) && Tracked(q, c0, d) && Dialling(q, d) && d.v.attempts == BudgetOf(q)
    requires forall i :: 0 <= i < |d.v.dials| ==> d.v.dials[i].at <= Clock(q.world, d.v.t)
    ensures Over(q, c0, reply, Settle(q, d, tokens, RecordedAsFailure(reply), Checked(reply)))
  {
    SettleIsLogged(q, c0, d, tokens, RecordedAsFailure(reply), Checked(reply));
    var final := Settle(q, d, tokens, RecordedAsFailure(reply), Checked(reply));
    assert Clock(q.world, d.v.t) <= Clock(q.world, final.v.t);
  }

  /** Every request that ends. */
  lemma EndIsOver(q: Request, c0: Core, ss: seq<State>, reply: Reply, final: State)
    requires Proper(q, c0) && Ends(q, c0, ss, reply, final)
    ensures Over(q, c0, reply, final) && !reply.NoModel?
    ensures reply.Exhausted? ==> q.cfg.None?
  {
    var s := ss[|ss| - 1];
    CourseIsSound(q, c0, ss, |ss| - 1);
    if s.v.attempt < s.v.attempts {
      DoneIs(q, s);
      if Counts(reply) {
        AnsweringIsOver(q, c0, s, TokensFor(q, Answering(q, s), reply), reply);
      }
    }
  }

  // ---------- what a request amounts to ----------

  /** The most legs a request can have. */
  function MaxLegs(q: Request, horizon: nat): nat {
    if q.cfg.None? then 1 else Budget(|ModelIds(q.cfg.value)|, PerModel(horizon))
  }

  lemma LegsAreFew(q: Request, c0: Core, s: State, horizon: nat)
    requires Orderly(q.world) && Tracked(q, c0, s) && (q.cfg.Some? ==> EndsWithin(q.world, horizon))
    ensures |s.left| < MaxLegs(q, horizon)
  {
    if q.cfg.Some? {
      assert Clock(q.world, s.v.t) <= Clock(q.world, 0) + horizon && Clock(q.world, 0) <= Clock(q.world, q.begun);
      OnCourseIsBounded(q.cfg.value, s.core, s.left, s.v.model, s.start, Clock(q.world, q.begun), Clock(q.world, s.v.t), horizon);
    }
  }

  lemma {:induction false} MoreLegs(a: nat, b: nat, per: nat)
    requires a <= b
    ensures a * per <= per * b
    decreases b
  {
    if a < b {
      MoreLegs(a, b - 1, per);
      assert per * b == per * (b - 1) + per;
    }
  }

  lemma LegsOfEndAreFew(q: Request, c0: Core, ss: seq<State>, reply: Reply, final: State, horizon: nat)
    requires Proper(q, c0) && Ends(q, c0, ss, reply, final) && (q.cfg.Some? ==> EndsWithin(q.world, horizon))
    ensures |final.left| < MaxLegs(q, horizon)
  {
    var s := ss[|ss| - 1];
    CourseIsSound(q, c0, ss, |ss| - 1);
    LegsAreFew(q, c0, s, horizon);
    EndIsOver(q, c0, ss, reply, final);
    if s.v.attempt < s.v.attempts {
      DoneIs(q, s);
    }
  }

  lemma DialsWithinLegs(q: Request, s: State)
    requires Dialling(q, s)
    ensures |s.v.dials| <= (|s.left| + 1) * BudgetOf(q)
  {
    BudgetIsProduct(|s.left| + 1, BudgetOf(q));
  }

  lemma MaxLegsIs(q: Request, horizon: nat)
    requires q.cfg.Some?
    ensures MaxLegs(q, horizon) == |ModelIds(q.cfg.value)| * PerModel(horizon)
    ensures horizon <= COOLDOWN ==> MaxLegs(q, horizon) == |ModelIds(q.cfg.value)|
  {
    BudgetIsProduct(|ModelIds(q.cfg.value)|, PerModel(horizon));
    assert horizon <= COOLDOWN ==> PerModel(horizon) == 1;
  }

  /** The bound on the dials: the retry budget times the models times the cooldowns that fit into the
      request, or just the budget for a direct request. */
  lemma DialsAreBounded(q: Request, c0: Core, ss: seq<State>, reply: Reply, final: State, horizon: nat)
    requires Proper(q, c0) && Ends(q, c0, ss, reply, final) && (q.cfg.Some? ==> EndsWithin(q.world, horizon))
    ensures q.cfg.None? ==> |final.v.dials| <= BudgetOf(q)
    ensures q.cfg.Some? ==> |final.v.dials| <= BudgetOf(q) * (|ModelIds(q.cfg.value)| * PerModel(horizon))
    ensures q.cfg.Some? && horizon <= COOLDOWN ==> |final.v.dials| <= BudgetOf(q) * |ModelIds(q.cfg.value)|
  {
    EndIsOver(q, c0, ss, reply, final);
    LegsOfEndAreFew(q, c0, ss, reply, final, horizon);
    DialsWithinLegs(q, final);
    MoreLegs(|final.left| + 1, MaxLegs(q, horizon), BudgetOf(q));
    if q.cfg.Some? {
      MaxLegsIs(q, horizon);
    }
  }

  /** The first dial goes to the model the request was routed to, and no dial to a stranger. */
  lemma DialsAreOurs(q: Request, c0: Core, ss: seq<State>, reply: Reply, final: State)
    requires Proper(q, c0) && Ends(q, c0, ss, reply, final)
    ensures final.v.dials != [] ==> final.v.dials[0].model == q.model
    ensures forall i :: 0 <= i < |final.v.dials| ==> final.v.dials[i].model in Ours(q)
  {
    EndIsOver(q, c0, ss, reply, final);
    assert final.v.dials != [] ==> OnLeg(final.v.dials[0], LegsOf(final));
  }

  /** A request dials a model it has left only after a full cooldown: of two dials to one model with
      a dial to another between them, the second is more than a cooldown later. */
  lemma ComesBackAfterCooldown(q: Request, c0: Core, ss: seq<State>, reply: Reply, final: State, i: nat, j: nat, k: nat)
    requires Proper(q, c0) && Ends(q, c0, ss, reply, final) && i < j < k < |final.v.dials|
    requires final.v.dials[i].model == final.v.dials[k].model != final.v.dials[j].model
    ensures final.v.dials[k].at > final.v.dials[i].at + COOLDOWN
  {
    EndIsOver(q, c0, ss, reply, final);
    var dials, legs := final.v.dials, LegsOf(final);
    assert InOrder(dials, i, j, BudgetOf(q)) && InOrder(dials, j, k, BudgetOf(q));
    assert OnLeg(dials[i], legs) && OnLeg(dials[j], legs) && OnLeg(dials[k], legs);
    assert q.cfg.Some?;
    var a, b := dials[i].leg, dials[k].leg;
    assert a < b && legs[a].model == legs[b].model;
    assert legs[b].start > legs[a].end + COOLDOWN;
  }

  /** So a request that takes no longer than a cooldown never comes back to a model it left, although
      every re-route resets its attempts. */
  lemma NeverComesBack(q: Request, c0: Core, ss: seq<State>, reply: Reply, final: State, i: nat, j: nat, k: nat)
    requires Proper(q, c0) && Ends(q, c0, ss, reply, final) && i < j < k < |final.v.dials|
    requires Clock(q.world, final.v.t) <= Clock(q.world, q.begun) + COOLDOWN
    requires final.v.dials[i].model == final.v.dials[k].model
    ensures final.v.dials[j].model == final.v.dials[i].model
  {
    EndIsOver(q, c0, ss, reply, final);
    var dials, legs := final.v.dials, LegsOf(final);
    assert OnLeg(dials[i], legs) && OnLeg(dials[j], legs) && OnLeg(dials[k], legs);
    if q.cfg.Some? && dials[j].model != dials[i].model {
      ComesBackAfterCooldown(q, c0, ss, reply, final, i, j, k);
    }
  }

  /** What the client's reply says about the last upstream answer. */
  ghost predicate Explains(reply: Reply, a: Answer, streaming: bool) {
    match reply
    case TransportFailed => a.TransportError?
    case Refused(code) => a.HttpError? && a.code == code
    case Streamed(_) => a.Success? && streaming
    case ReadFailed => a.Success? && !streaming && !a.readOK
    case Answered => a.Success? && !streaming && a.readOK
    case _ => true
  }

  /** An error that could be retried is passed on only when the attempts are used up, which are two at
      least for a failed stream, a fault, a missing model and for every strategy request. */
  ghost predicate Exhausting(reply: Reply, a: Answer, attempt: nat, attempts: int, viaStrategy: bool) {
    match reply
    case TransportFailed => a.TransportError? && a.retryable ==> attempt >= attempts && (viaStrategy ==> attempt >= 2)
    case Refused(_) => Retriable(a) ==> attempt >= attempts && (Lifts(a) || viaStrategy ==> attempt >= 2)
    case Streamed(failed) => failed ==> attempt >= attempts && attempt >= 2
    case _ => true
  }

  lemma DoneIsEarned(q: Request, s: State)
    requires s.v.attempt < s.v.attempts && Pass(q, s).Done? && Counts(Pass(q, s).reply) && (q.cfg.Some? ==> s.v.attempts >= 2)
    ensures var Done(reply, final), d := Pass(q, s), Answering(q, s);
            && Explains(reply, d.v.last, q.streaming)
            && Exhausting(reply, d.v.last, d.v.attempt, d.v.attempts, q.cfg.Some?)
            && (reply.Streamed? ==>
                  var r := Piped(q.texts, d.v.prov.holdTimeout, d.v.attempt, d.v.attempts, d.v.last);
                  !r.retryEarly && reply.failed == r.failed)
  {
  }

  lemma SettleKeepsVars(q: Request, s: State, tokens: int, failed: bool, check: bool)
    ensures var final := Settle(q, s, tokens, failed, check);
            final.v == s.v.(t := final.v.t) && final.left == s.left && final.start == s.start
  {
  }

  lemma AnsweringLast(q: Request, s: State)
    ensures var d := Answering(q, s);
            && d.v.attempt > 0 && d.v.dials != [] && d.v.last == AnswerTo(q.world, |d.v.dials| - 1)
            && d.v.dials[|d.v.dials| - 1].model == d.v.model && d.v.dials[|d.v.dials| - 1].provider == d.v.prov
  {
  }

  /** Every counted reply explains the answer to the last dial, which went to the request's current
      model after so many attempts at it; and nothing that could be retried is passed on too early. */
  lemma RepliesAreEarned(q: Request, c0: Core, ss: seq<State>, reply: Reply, final: State)
    requires Proper(q, c0) && Ends(q, c0, ss, reply, final) && Counts(reply) && !reply.Exhausted?
    ensures final.v.attempt > 0 && final.v.dials != [] && final.v.last == AnswerTo(q.world, |final.v.dials| - 1)
    ensures final.v.dials[|final.v.dials| - 1].model == final.v.model
    ensures final.v.dials[|final.v.dials| - 1].provider == final.v.prov
    ensures Explains(reply, final.v.last, q.streaming)
    ensures Exhausting(reply, final.v.last, final.v.attempt, final.v.attempts, q.cfg.Some?)
    ensures reply.Streamed? ==>
              var r := Piped(q.texts, final.v.prov.holdTimeout, final.v.attempt, final.v.attempts, final.v.last);
              !r.retryEarly && reply.failed == r.failed
  {
    var s := ss[|ss| - 1];
    StrategyBudget(q, c0, ss);
    DoneIs(q, s);
    DoneIsEarned(q, s);
    AnsweringLast(q, s);
    SettleKeepsVars(q, Answering(q, s), TokensFor(q, Answering(q, s), reply), RecordedAsFailure(reply), Checked(reply));
  }

  lemma StrategyBudget(q: Request, c0: Core, ss: seq<State>)
    requires Proper(q, c0) && Course(q, c0, ss)
    ensures q.cfg.Some? ==> ss[|ss| - 1].v.attempts >= 2
  {
    CourseIsSound(q, c0, ss, |ss| - 1);
  }

  /** The loop runs out without a reply only for a direct request without retries whose only stream
      failed, or whose provider is configured with fewer than none. */
  lemma ExhaustedIs(q: Request, c0: Core, ss: seq<State>, final: State)
    requires Proper(q, c0) && Ends(q, c0, ss, Exhausted, final)
    ensures q.cfg.None?
    ensures if final.v.dials == [] then q.provider.maxRetries < 0 else Spent(q, final)
  {
    var s := ss[|ss| - 1];
    CourseIsSound(q, c0, ss, |ss| - 1);
    if s.v.attempt < s.v.attempts {
      DoneIs(q, s);
    }
  }

  /** The attempts at the last model are the last dials, all to it, and no other dial of the leg. */
  lemma LastAttempts(q: Request, c0: Core, ss: seq<State>, reply: Reply, final: State)
    requires Proper(q, c0) && Ends(q, c0, ss, reply, final)
    ensures final.v.attempt <= |final.v.dials|
    ensures forall i :: |final.v.dials| - final.v.attempt <= i < |final.v.dials| ==> final.v.dials[i].model == final.v.model
  {
    EndIsOver(q, c0, ss, reply, final);
    forall i | |final.v.dials| - final.v.attempt <= i < |final.v.dials| ensures final.v.dials[i].model == final.v.model {
      assert OnLeg(final.v.dials[i], LegsOf(final));
    }
  }

  lemma SettledOutcomes(mine: seq<Event>, model: string, failed: bool, checked: bool, id: string)
    requires Settled(mine, model, failed, checked)
    ensures Outcomes(mine, id) == if id == model then 1 else 0
  {
    var k := RecordAt(mine, checked);
    NoOutcomes(mine[..k], id);
    assert mine[..k + 1][..k] == mine[..k];
    if checked {
      assert mine[..|mine| - 1] == mine[..k + 1];
    } else {
      assert mine[..k + 1] == mine;
    }
  }

  /** Under any interference a strategy request adds to the log exactly one outcome more than the
      others do, and it is that of the model dialled last; or none, if it was cancelled or could not
      be built. */
  lemma OneOutcome(q: Request, c0: Core, ss: seq<State>, reply: Reply, final: State, l0: seq<Event>, id: string)
    requires Proper(q, c0) && Ends(q, c0, ss, reply, final) && q.cfg.Some?
    ensures Counts(reply) ==> final.v.dials != []
    ensures Outcomes(l0 + Woven(q.world, q.begun, final.mine), id) ==
              Outcomes(l0, id) + Outcomes(OthersDuring(q.world, q.begun, |final.mine|), id)
              + if Counts(reply) && id == final.v.dials[|final.v.dials| - 1].model then 1 else 0
  {
    EndIsOver(q, c0, ss, reply, final);
    OutcomesAppend(l0, Woven(q.world, q.begun, final.mine), id);
    WovenOutcomes(q.world, q.begun, final.mine, id);
    if Counts(reply) {
      RepliesAreEarned(q, c0, ss, reply, final);
      SettledOutcomes(final.mine, final.v.model, RecordedAsFailure(reply), Checked(reply), id);
    } else {
      NoOutcomes(final.mine, id);
    }
  }
}
