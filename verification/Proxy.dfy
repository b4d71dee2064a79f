/** The request engine of the model proxy at work on the shared strategy object: handleChat and the
    retry and re-route loop of forwardChat (internal/modelproxy/proxy.go). Each method does to the
    strategy and to the request's variables what the function of the same name in Serving says. */
module Proxy {
  import opened Text
  import opened Breakers
  import opened Router
  import opened Strategy
  import opened Legs
  import opened Upstream
  import opened Serving
  import opened Served
  import Sse

  /** The strategy is in the request's state, and its log has gained exactly this request's events and
      what the others did before each. */
  ghost predicate Holds(strat: StrategyState?, q: Request, l0: seq<Event>, s: State)
    reads if strat == null then {} else {strat, strat.sessions}
  {
    && (strat == null <==> q.cfg.None?)
    && (strat != null ==>
          && q.cfg == Some(strat.cfg) && strat.Valid() && strat.View() == s.core
          && s.v.t == q.begun + |s.mine| && strat.log == l0 + Woven(q.world, q.begun, s.mine))
  }

  // ---------- locked sections ----------

  lemma ActIs(q: Request, s: State, a: Action, e: Event, cfg: Config)
    requires q.cfg == Some(cfg) && e == Event(Clock(q.world, s.v.t + 1), a)
    ensures var s' := Act(q, s, a);
            && s'.core == Step(cfg, Found(cfg, s.core, q.world, s.v.t), e)
            && s'.mine == s.mine + [e] && |s'.mine| == |s.mine| + 1 && s'.v.t == s.v.t + 1
  {
  }

  /** One more locked section of this request is over. */
  lemma SectionHolds(strat: StrategyState, q: Request, l: seq<Event>, l0: seq<Event>, s: State, a: Action)
    requires q.cfg == Some(strat.cfg) && strat.Valid() && s.v.t == q.begun + |s.mine| && l == l0 + Woven(q.world, q.begun, s.mine)
    requires var e := Event(Clock(q.world, s.v.t + 1), a);
             && strat.log == l + OthersAt(q.world, s.v.t) + [e]
             && strat.View() == Step(strat.cfg, Found(strat.cfg, s.core, q.world, s.v.t), e)
    ensures Holds(strat, q, l0, Act(q, s, a))
  {
    var e := Event(Clock(q.world, s.v.t + 1), a);
    ActIs(q, s, a, e, strat.cfg);
    WeaveOn(l, l0, q.world, q.begun, s.mine, e);
  }

  /** Force the current model's breaker open; others may act before. */
  method ForceCurrent(strat: StrategyState, q: Request, v: Vars, ghost l0: seq<Event>, ghost s: State)
    requires Holds(strat, q, l0, s) && s.v == v
    modifies strat, strat.sessions
    ensures Holds(strat, q, l0, Act(q, s, Action.Force(v.model)))
  {
    ghost var l := strat.log;
    strat.Others(OthersAt(q.world, v.t));
    strat.ForceOpen(v.model, Clock(q.world, v.t + 1));
    SectionHolds(strat, q, l, l0, s, Action.Force(v.model));
  }

  lemma RoutingIs(q: Request, s: State, cfg: Config)
    requires q.cfg == Some(cfg)
    ensures var now, pick := Clock(q.world, s.v.t + 1), Draw(q.world, s.v.t + 1);
            && RouteNow(q, s) == Act(q, s, Action.Route(q.session, pick))
            && ChoiceNow(q, s) == RouteChoice(cfg, Found(cfg, s.core, q.world, s.v.t), q.session, pick, now)
  {
  }

  /** Route; others may act before. */
  method RouteAgain(strat: StrategyState, q: Request, t: nat, ghost l0: seq<Event>, ghost s: State) returns (r: Option<Choice>)
    requires Holds(strat, q, l0, s) && s.v.t == t
    modifies strat, strat.sessions
    ensures Holds(strat, q, l0, RouteNow(q, s)) && r == ChoiceNow(q, s)
  {
    ghost var l := strat.log;
    RoutingIs(q, s, strat.cfg);
    r := RouteAt(strat, q.world, t, q.session);
    SectionHolds(strat, q, l, l0, s, Action.Route(q.session, Draw(q.world, t + 1)));
  }

  method RouteAt(strat: StrategyState, w: World, t: nat, session: string) returns (r: Option<Choice>)
    requires strat.Valid()
    modifies strat, strat.sessions
    ensures var e, c := Event(Clock(w, t + 1), Action.Route(session, Draw(w, t + 1))), Found(strat.cfg, old(strat.View()), w, t);
            && strat.Valid() && strat.log == old(strat.log) + OthersAt(w, t) + [e] && strat.View() == Step(strat.cfg, c, e)
            && r == RouteChoice(strat.cfg, c, session, Draw(w, t + 1), Clock(w, t + 1))
  {
    strat.Others(OthersAt(w, t));
    r := strat.RouteStrategyModel(session, Draw(w, t + 1), Clock(w, t + 1));
  }

  method RecordOutcome(strat: StrategyState, q: Request, v: Vars, o: Outcome, ghost l0: seq<Event>, ghost s: State)
    requires Holds(strat, q, l0, s) && s.v == v
    modifies strat, strat.sessions
    ensures Holds(strat, q, l0, Act(q, s, Action.Record(v.model, o)))
  {
    ghost var l := strat.log;
    strat.Others(OthersAt(q.world, v.t));
    strat.RecordStrategyMetrics(v.model, o, Clock(q.world, v.t + 1));
    SectionHolds(strat, q, l, l0, s, Action.Record(v.model, o));
  }

  method CheckCurrent(strat: StrategyState, q: Request, v: Vars, ghost l0: seq<Event>, ghost s: State)
    requires Holds(strat, q, l0, s) && s.v == v
    modifies strat, strat.sessions
    ensures Holds(strat, q, l0, Act(q, s, Action.Check(v.model)))
  {
    ghost var l := strat.log;
    strat.Others(OthersAt(q.world, v.t));
    strat.CheckCircuitBreaker(v.model, Clock(q.world, v.t + 1));
    SectionHolds(strat, q, l, l0, s, Action.Check(v.model));
  }

  /** The re-route block of forwardChat. */
  method LeaveModel(strat: StrategyState, q: Request, v: Vars, ghost l0: seq<Event>, ghost s: State) returns (v': Vars)
    requires Holds(strat, q, l0, s) && s.v == v
    modifies strat, strat.sessions
    ensures Holds(strat, q, l0, Serving.LeaveModel(q, s)) && v' == Serving.LeaveModel(q, s).v
  {
    ForceCurrent(strat, q, v, l0, s);
    ghost var forced := Act(q, s, Action.Force(v.model));
    var next := RouteAgain(strat, q, v.t + 1, l0, forced);
    v' := v.(t := v.t + 2);
    if next.Some? && next.value.model != v.model {
      v' := v'.(model := next.value.model, prov := next.value.provider, attempt := 0, skipSaturationWait := false, leg := v.leg + 1);
    }
  }

  method CheckAndLeave(strat: StrategyState, q: Request, v: Vars, ghost l0: seq<Event>, ghost s: State) returns (v': Vars)
    requires Holds(strat, q, l0, s) && s.v == v
    modifies strat, strat.sessions
    ensures var s' := Serving.LeaveModel(q, Act(q, s, Action.Check(v.model)));
            Holds(strat, q, l0, s') && v' == s'.v
  {
    CheckCurrent(strat, q, v, l0, s);
    v' := LeaveModel(strat, q, v.(t := v.t + 1), l0, Act(q, s, Action.Check(v.model)));
  }

  /** The end of a counted request: its outcome is recorded and, if asked, its model checked. */
  method Settle(strat: StrategyState?, q: Request, v: Vars, tokens: int, failed: bool, check: bool, ghost l0: seq<Event>, ghost s: State)
    returns (v': Vars)
    requires Holds(strat, q, l0, s) && s.v == v
    modifies if strat == null then {} else {strat, strat.sessions}
    ensures Holds(strat, q, l0, Serving.Settle(q, s, tokens, failed, check)) && v' == Serving.Settle(q, s, tokens, failed, check).v
  {
    v' := v;
    if strat != null {
      var o := Outcome(Elapsed(q, v.t), tokens, failed);
      RecordOutcome(strat, q, v, o, l0, s);
      v' := v'.(t := v.t + 1);
      if check {
        CheckCurrent(strat, q, v', l0, Act(q, s, Action.Record(v.model, o)));
        v' := v'.(t := v.t + 2);
      }
    }
  }

  // ---------- one answer ----------

  /** A pass with a reply is done, and one without goes on. */
  ghost function Came(reply: Option<Reply>, s: State): Passed {
    match reply
    case Some(r) => Done(r, s)
    case None => Next(s)
  }

  method OnTransportError(strat: StrategyState?, q: Request, v: Vars, retryable: bool, ghost l0: seq<Event>, ghost s: State)
    returns (reply: Option<Reply>, v': Vars, ghost s': State)
    requires Holds(strat, q, l0, s) && s.v == v
    modifies if strat == null then {} else {strat, strat.sessions}
    ensures Serving.OnTransportError(q, s, retryable) == Came(reply, s') && s'.v == v' && Holds(strat, q, l0, s')
  {
    if v.attempt < v.attempts && retryable {
      return None, v, s;
    }
    v' := Settle(strat, q, v, 0, true, true, l0, s);
    reply, s' := Some(TransportFailed), Serving.Settle(q, s, 0, true, true);
  }

  lemma HttpErrorIs(q: Request, s: State, a: Answer, v: Vars)
    requires a.HttpError?
    requires v == s.v.(attempts := if (a.faultText || a.code == 404) && s.v.attempts < 2 then 2 else s.v.attempts)
    ensures var p, isSaturation := Serving.OnHttpError(q, s, a), a.code == 429 || a.saturationText;
            var again := s.(v := v.(skipSaturationWait := isSaturation));
            if v.attempt < v.attempts && (TransientStatus(a.code) || isSaturation || a.faultText || a.code == 404) then
              var leaves := q.cfg.Some? && (isSaturation || 500 <= a.code < 600 || a.faultText || a.code == 404);
              p == Next(if leaves then Serving.LeaveModel(q, again) else again)
            else p == Done(Refused(a.code), Serving.Settle(q, s.(v := v), 0, true, true))
  {
  }

  method OnHttpError(strat: StrategyState?, q: Request, v: Vars, a: Answer, ghost l0: seq<Event>, ghost s: State)
    returns (reply: Option<Reply>, v': Vars, ghost s': State)
    requires a.HttpError? && Holds(strat, q, l0, s) && s.v == v
    modifies if strat == null then {} else {strat, strat.sessions}
    ensures Serving.OnHttpError(q, s, a) == Came(reply, s') && s'.v == v' && Holds(strat, q, l0, s')
  {
    ghost var p := Serving.OnHttpError(q, s, a);
    reply, v', s' := None, v, s;
    var code := a.code;
    var isSaturation := code == 429 || a.saturationText;
    var isServerError := 500 <= code < 600;
    if (a.faultText || code == 404) && v'.attempts < 2 {
      v' := v'.(attempts := 2);
    }
    HttpErrorIs(q, s, a, v');
    if v'.attempt < v'.attempts && (TransientStatus(code) || isSaturation || a.faultText || code == 404) {
      v' := v'.(skipSaturationWait := isSaturation);
      s' := s.(v := v');
      if strat != null && (isSaturation || isServerError || a.faultText || code == 404) {
        v' := LeaveModel(strat, q, v', l0, s');
        s' := p.s;
      }
    } else {
      s' := s.(v := v');
      v' := Settle(strat, q, v', 0, true, true, l0, s');
      reply, s' := Some(Refused(code)), p.s;
    }
  }

  /** A successful status with a stream. */
  method OnStream(strat: StrategyState?, q: Request, v: Vars, a: Answer, ghost l0: seq<Event>, ghost s: State)
    returns (reply: Option<Reply>, v': Vars, ghost s': State)
    requires a.Success? && Holds(strat, q, l0, s) && s.v == v
    modifies if strat == null then {} else {strat, strat.sessions}
    ensures Serving.OnStream(q, s, a) == Came(reply, s') && s'.v == v' && Holds(strat, q, l0, s')
  {
    var usage, failed, retryEarly, out :=
      Sse.PipeSSE(a.scanned, a.eofAt, a.ticks, v.attempt < v.attempts, v.attempt == 1 && v.attempts <= 1, v.prov.holdTimeout, q.texts);
    if retryEarly {
      v' := if v.attempts < 2 then v.(attempts := 2) else v;
      return None, v', s.(v := v');
    }
    reply, v', s' := OnRelayed(strat, q, v, Sse.Result(usage, failed, retryEarly, out), l0, s);
  }

  method OnRelayed(strat: StrategyState?, q: Request, v: Vars, r: Sse.Result, ghost l0: seq<Event>, ghost s: State)
    returns (reply: Option<Reply>, v': Vars, ghost s': State)
    requires Holds(strat, q, l0, s) && s.v == v
    modifies if strat == null then {} else {strat, strat.sessions}
    ensures Serving.OnRelayed(q, s, r) == Came(reply, s') && s'.v == v' && Holds(strat, q, l0, s')
  {
    ghost var p := Serving.OnRelayed(q, s, r);
    reply, v', s' := None, v, s;
    if r.failed && (v.attempt < v.attempts || (v.attempt == v.attempts && v.attempts == 1)) {
      if strat != null {
        assert p == Next(Serving.LeaveModel(q, Act(q, s, Action.Check(v.model))));
        v' := CheckAndLeave(strat, q, v, l0, s);
        s' := p.s;
      }
    } else {
      var tokens := if r.usage.Some? then r.usage.value.prompt + r.usage.value.completion else 0;
      assert p == Done(Streamed(r.failed), Serving.Settle(q, s, tokens, false, r.failed));
      v' := Settle(strat, q, v, tokens, false, r.failed, l0, s);
      reply, s' := Some(Streamed(r.failed)), p.s;
    }
  }

  /** A successful status with a body. */
  method OnBody(strat: StrategyState?, q: Request, v: Vars, a: Answer, ghost l0: seq<Event>, ghost s: State)
    returns (reply: Option<Reply>, v': Vars, ghost s': State)
    requires a.Success? && Holds(strat, q, l0, s) && s.v == v
    modifies if strat == null then {} else {strat, strat.sessions}
    ensures Serving.OnBody(q, s, a) == Came(reply, s') && s'.v == v' && Holds(strat, q, l0, s')
  {
    if !a.readOK {
      v' := Settle(strat, q, v, 0, false, true, l0, s);
      return Some(ReadFailed), v', Serving.Settle(q, s, 0, false, true);
    }
    v' := Settle(strat, q, v, a.tokens, false, false, l0, s);
    reply, s' := Some(Answered), Serving.Settle(q, s, a.tokens, false, false);
  }

  method OnAnswer(strat: StrategyState?, q: Request, v: Vars, a: Answer, ghost l0: seq<Event>, ghost s: State)
    returns (reply: Option<Reply>, v': Vars, ghost s': State)
    requires !a.Unbuilt? && Holds(strat, q, l0, s) && s.v == v
    modifies if strat == null then {} else {strat, strat.sessions}
    ensures Serving.OnAnswer(q, s, a) == Came(reply, s') && s'.v == v' && Holds(strat, q, l0, s')
  {
    match a {
      case TransportError(retryable) =>
        reply, v', s' := OnTransportError(strat, q, v, retryable, l0, s);
      case HttpError(_, _, _) =>
        reply, v', s' := OnHttpError(strat, q, v, a, l0, s);
      case Success(_, _, _, _, _) =>
        if q.streaming {
          reply, v', s' := OnStream(strat, q, v, a, l0, s);
        } else {
          reply, v', s' := OnBody(strat, q, v, a, l0, s);
        }
    }
  }

  // ---------- the retry loop ----------

  /** One pass through the loop: a reply, or the variables for the next pass. */
  method OnePass(strat: StrategyState?, q: Request, v: Vars, ghost l0: seq<Event>, ghost s: State)
    returns (reply: Option<Reply>, v': Vars, ghost s': State)
    requires Holds(strat, q, l0, s) && s.v == v
    modifies if strat == null then {} else {strat, strat.sessions}
    ensures Pass(q, s) == Came(reply, s') && s'.v == v' && Holds(strat, q, l0, s')
  {
    if !v.skipSaturationWait && !Gate(q.world, |v.dials|) {
      return Some(Cancelled), v, s;
    }
    var answer := AnswerTo(q.world, |v.dials|);
    if answer.Unbuilt? {
      return Some(NotBuilt), v, s;
    }
    v' := Dialled(q.world, v);
    reply, v', s' := OnAnswer(strat, q, v', answer, l0, s.(v := v'));
  }

  /** A direct request has no strategy. */
  const NOBODY: Core := Core(0, "", map[], map[])

  ghost function CoreOf(strat: StrategyState?): Core
    reads if strat == null then {} else {strat, strat.sessions}
  {
    if strat == null then NOBODY else strat.View()
  }

  ghost function LogOf(strat: StrategyState?): seq<Event>
    reads if strat == null then {} else {strat}
  {
    if strat == null then [] else strat.log
  }

  /** forwardChat: dial, and depending on the answer give up, retry, or re-route and start over
      with a full budget. A direct request ends whatever the upstream answers. So does a request of
      a strategy that takes no longer than the horizon, whatever other requests do meanwhile, because
      a model that was left stays quarantined for a cooldown. */
  method ForwardChat(strat: StrategyState?, q: Request, ghost horizon: nat)
    returns (reply: Reply, v: Vars, ghost ss: seq<State>, ghost final: State)
    requires q.cfg == (if strat == null then None else Some(strat.cfg)) && Proper(q, CoreOf(strat))
    requires strat != null ==> strat.Valid() && EndsWithin(q.world, horizon)
    modifies if strat == null then {} else {strat, strat.sessions}
    ensures Ends(q, old(CoreOf(strat)), ss, reply, final) && v == final.v
    ensures Holds(strat, q, old(LogOf(strat)), final)
  {
    ghost var c0, l0 := CoreOf(strat), LogOf(strat);
    var attempts := q.provider.maxRetries + 1;
    if strat != null && attempts < 2 {
      attempts := 2;
    }
    v := Vars(q.model, q.provider, attempts, 0, false, q.begun, [], Unbuilt, 0);
    ss, final := [First(q, c0)], First(q, c0);
    Begins(strat, q, l0, final);
    while v.attempt < v.attempts
      invariant Course(q, c0, ss) && final == ss[|ss| - 1] && v == final.v
      invariant Holds(strat, q, l0, final)
      decreases MaxLegs(q, horizon) - |final.left|, if v.attempts < 2 then 1 else 0, v.attempts - v.attempt
    {
      ghost var s := final;
      GoesOn(q, c0, ss, horizon);
      var r;
      r, v, final := OnePass(strat, q, v, l0, s);
      if r.Some? {
        return r.value, v, ss, final;
      }
      ss := ss + [final];
    }
    reply := Exhausted;
  }

  /** A pass that goes on extends the course, and lowers the loop's measure. */
  lemma GoesOn(q: Request, c0: Core, ss: seq<State>, horizon: nat)
    requires Proper(q, c0) && Course(q, c0, ss) && (q.cfg.Some? ==> EndsWithin(q.world, horizon))
    requires ss[|ss| - 1].v.attempt < ss[|ss| - 1].v.attempts
    ensures var s := ss[|ss| - 1];
            && |s.left| < MaxLegs(q, horizon)
            && (Pass(q, s).Next? ==> Course(q, c0, ss + [Pass(q, s).s]) && Progress(s, Pass(q, s).s))
  {
    var s := ss[|ss| - 1];
    CourseIsSound(q, c0, ss, |ss| - 1);
    LegsAreFew(q, c0, s, horizon);
    if Pass(q, s).Next? {
      PassIsSound(q, c0, s);
      CourseGoesOn(q, c0, ss, Pass(q, s).s);
    }
  }

  lemma Begins(strat: StrategyState?, q: Request, l0: seq<Event>, s: State)
    requires q.cfg == (if strat == null then None else Some(strat.cfg)) && (strat != null ==> strat.Valid() && strat.log == l0)
    requires s.mine == [] && s.v.t == q.begun && s.core == CoreOf(strat)
    ensures Holds(strat, q, l0, s)
  {
    assert l0 + [] == l0;
  }

  // ---------- the handler ----------

  /** The request that handleChat forwards: a strategy has spent the first moment on routing it. */
  function Forwarded(cfg: Option<Config>, first: Choice, streaming: bool, session: string, texts: Sse.Texts, w: World): Request {
    Request(cfg, first.model, first.provider, streaming, session, texts, w, if cfg.None? then 0 else 1)
  }

  /** The decision that routes the request, and the event it is in the log. */
  function FirstChoice(cfg: Config, c: Core, session: string, w: World): Option<Choice> {
    RouteChoice(cfg, Found(cfg, c, w, 0), session, Draw(w, 1), Clock(w, 1))
  }

  function RouteEvent(session: string, w: World): Event {
    Event(Clock(w, 1), Action.Route(session, Draw(w, 1)))
  }

  /** A strategy request is refused exactly when routing finds nothing in the strategy as the request
      finds it. */
  lemma RefusedIff(cfg: Config, c: Core, session: string, w: World)
    requires cfg.kind in {Fallback, RoundRobin, Weighted} && "" !in ModelIds(cfg)
    ensures FirstChoice(cfg, c, session, w).None? <==> forall e :: e in cfg.models ==> !Routable(cfg, Found(cfg, c, w, 0), e.id, Clock(w, 1))
  {
    RouteFailsIffNothingRoutable(cfg, Found(cfg, c, w, 0), session, Draw(w, 1), Clock(w, 1));
  }

  lemma ForwardedIsProper(cfg: Config, c: Core, first: Choice, streaming: bool, session: string, texts: Sse.Texts, w: World)
    requires Orderly(w) && c.cells.Keys == ModelIds(cfg) && FirstChoice(cfg, c, session, w) == Some(first)
    ensures Proper(Forwarded(Some(cfg), first, streaming, session, texts, w), Step(cfg, Found(cfg, c, w, 0), RouteEvent(session, w)))
  {
    RunKeepsKeys(cfg, c, OthersAt(w, 0));
    StepKeepsKeys(cfg, Found(cfg, c, w, 0), RouteEvent(session, w));
    RouteSelectsRoutable(cfg, Found(cfg, c, w, 0), session, Draw(w, 1), Clock(w, 1));
  }

  method ForwardDirect(first: Choice, streaming: bool, session: string, texts: Sse.Texts, w: World)
    returns (reply: Reply, dials: seq<Dial>, ghost ss: seq<State>, ghost final: Option<State>)
    requires Orderly(w)
    ensures final.Some? && !reply.NoModel? && dials == final.value.v.dials
    ensures var q := Forwarded(None, first, streaming, session, texts, w);
            Proper(q, NOBODY) && Ends(q, NOBODY, ss, reply, final.value)
  {
    var q := Forwarded(None, first, streaming, session, texts, w);
    var v;
    ghost var last;
    reply, v, ss, last := ForwardChat(null, q, 0);
    EndIsOver(q, NOBODY, ss, reply, last);
    dials, final := v.dials, Some(last);
  }

  /** The strategy has just made its first choice; c is how the request found it before. */
  method ForwardRouted(strat: StrategyState, first: Choice, streaming: bool, session: string, texts: Sse.Texts, w: World, ghost horizon: nat,
                       ghost c: Core)
    returns (reply: Reply, dials: seq<Dial>, ghost ss: seq<State>, ghost final: Option<State>)
    requires Orderly(w) && strat.Valid() && EndsWithin(w, horizon)
    requires c.cells.Keys == ModelIds(strat.cfg) && FirstChoice(strat.cfg, c, session, w) == Some(first)
    requires strat.View() == Step(strat.cfg, Found(strat.cfg, c, w, 0), RouteEvent(session, w))
    modifies strat, strat.sessions
    ensures final.Some? && !reply.NoModel? && dials == final.value.v.dials
    ensures var q := Forwarded(Some(strat.cfg), first, streaming, session, texts, w);
            Proper(q, old(strat.View())) && Ends(q, old(strat.View()), ss, reply, final.value) && Holds(strat, q, old(strat.log), final.value)
  {
    var q := Forwarded(Some(strat.cfg), first, streaming, session, texts, w);
    ForwardedIsProper(strat.cfg, c, first, streaming, session, texts, w);
    var v;
    ghost var last;
    ghost var c0 := strat.View();
    reply, v, ss, last := ForwardChat(strat, q, horizon);
    EndIsOver(q, c0, ss, reply, last);
    dials, final := v.dials, Some(last);
  }

  /** handleChat: route once, then forward. Without a strategy the request goes to the provider
      that serves the model directly, if any. */
  method HandleChat(strat: StrategyState?, direct: Option<Choice>, streaming: bool, session: string, texts: Sse.Texts,
                    w: World, ghost horizon: nat)
    returns (reply: Reply, first: Option<Choice>, dials: seq<Dial>, ghost ss: seq<State>, ghost final: Option<State>)
    requires Orderly(w) && (strat != null ==> strat.Valid() && EndsWithin(w, horizon))
    modifies if strat == null then {} else {strat, strat.sessions}
    ensures reply.NoModel? <==> first.None?
    ensures first == if strat == null then direct else FirstChoice(strat.cfg, old(strat.View()), session, w)
    ensures first.None? ==> dials == [] && (strat != null ==> strat.log == old(strat.log) + OthersAt(w, 0) + [RouteEvent(session, w)])
    ensures first.Some? && strat == null ==>
              var q := Forwarded(None, first.value, streaming, session, texts, w);
              final.Some? && Proper(q, NOBODY) && Ends(q, NOBODY, ss, reply, final.value) && dials == final.value.v.dials
    ensures first.Some? && strat != null ==>
              var q := Forwarded(Some(strat.cfg), first.value, streaming, session, texts, w);
              var c0 := Step(strat.cfg, Found(strat.cfg, old(strat.View()), w, 0), RouteEvent(session, w));
              && final.Some? && Proper(q, c0) && Ends(q, c0, ss, reply, final.value) && dials == final.value.v.dials
              && Holds(strat, q, old(strat.log) + OthersAt(w, 0) + [RouteEvent(session, w)], final.value)
  {
    first, dials, ss, final := direct, [], [], None;
    if strat == null {
      if first.None? {
        return NoModel, first, dials, ss, final;
      }
      reply, dials, ss, final := ForwardDirect(first.value, streaming, session, texts, w);
    } else {
      ghost var c := strat.View();
      first := RouteAt(strat, w, 0, session);
      if first.None? {
        return NoModel, first, dials, ss, final;
      }
      reply, dials, ss, final := ForwardRouted(strat, first.value, streaming, session, texts, w, horizon, c);
    }
  }

  /** So the number of dials that a strategy request makes is bounded, and the first one goes where it was
      routed to. */
  lemma HandledDials(cfg: Option<Config>, c0: Core, first: Choice, streaming: bool, session: string, texts: Sse.Texts, w: World, horizon: nat,
                     ss: seq<State>, reply: Reply, final: State)
    requires var q := Forwarded(cfg, first, streaming, session, texts, w);
             Proper(q, c0) && Ends(q, c0, ss, reply, final) && (cfg.Some? ==> EndsWithin(w, horizon))
    ensures final.v.dials != [] ==> final.v.dials[0].model == first.model
    ensures cfg.None? ==> |final.v.dials| <= Max(first.provider.maxRetries + 1, 2)
    ensures cfg.Some? ==> |final.v.dials| <= Max(first.provider.maxRetries + 1, 2) * (|ModelIds(cfg.value)| * PerModel(horizon))
    ensures cfg.Some? && horizon <= COOLDOWN ==> |final.v.dials| <= Max(first.provider.maxRetries + 1, 2) * |ModelIds(cfg.value)|
  {
    var q := Forwarded(cfg, first, streaming, session, texts, w);
    DialsAreBounded(q, c0, ss, reply, final, horizon);
    DialsAreOurs(q, c0, ss, reply, final);
  }
}
