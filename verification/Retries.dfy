/** When a request dials again, where, and what it records (internal/modelproxy/proxy.go, forwardChat),
    said of its dials, the upstream's answers and its events. */
module Retries {
  import opened Text
  import opened Breakers
  import opened Router
  import opened Legs
  import opened Upstream
  import opened Serving
  import opened Served
  import Sse

  // ---------- the passes and their dials ----------

  lemma NextDials(q: Request, s: State)
    requires Pass(q, s).Next?
    ensures Pass(q, s).s.v.dials == s.v.dials + [Dial(s.v.model, s.v.prov, Clock(q.world, s.v.t), s.v.leg)]
  {
  }

  lemma {:induction false} PassMakesOneDial(q: Request, c0: Core, ss: seq<State>, k: nat)
    requires Course(q, c0, ss) && k < |ss|
    ensures |ss[k].v.dials| == k
  {
    if k > 0 {
      PassMakesOneDial(q, c0, ss, k - 1);
      assert Leads(q, ss, k - 1);
      NextDials(q, ss[k - 1]);
    }
  }

  /** The dial made from this state. */
  function NextDial(q: Request, s: State): Dial {
    Dial(s.v.model, s.v.prov, Clock(q.world, s.v.t), s.v.leg)
  }

  /** The dials of earlier passes are there to the end. */
  lemma {:induction false} DialsStay(q: Request, c0: Core, ss: seq<State>, j: nat, k: nat)
    requires Course(q, c0, ss) && j < k < |ss|
    ensures |ss[k].v.dials| > j && ss[k].v.dials[j] == NextDial(q, ss[j])
    decreases k
  {
    assert Leads(q, ss, k - 1);
    NextDials(q, ss[k - 1]);
    PassMakesOneDial(q, c0, ss, k - 1);
    if j < k - 1 {
      DialsStay(q, c0, ss, j, k - 1);
    }
  }

  lemma LastDials(q: Request, c0: Core, ss: seq<State>, reply: Reply, final: State)
    requires Ends(q, c0, ss, reply, final)
    ensures var s := ss[|ss| - 1];
            final.v.dials == s.v.dials || final.v.dials == s.v.dials + [NextDial(q, s)]
  {
    var s := ss[|ss| - 1];
    if s.v.attempt < s.v.attempts {
      DoneIs(q, s);
      SettleKeepsVars(q, Answering(q, s), TokensFor(q, Answering(q, s), reply), RecordedAsFailure(reply), Checked(reply));
    }
  }

  /** Every dial but the last is made in a pass that goes on. */
  lemma DialIsMadeIn(q: Request, c0: Core, ss: seq<State>, reply: Reply, final: State, j: nat)
    requires Ends(q, c0, ss, reply, final) && j < |final.v.dials|
    ensures j < |ss| && |ss[j].v.dials| == j && final.v.dials[j] == NextDial(q, ss[j])
  {
    LastDials(q, c0, ss, reply, final);
    PassMakesOneDial(q, c0, ss, |ss| - 1);
    PassMakesOneDial(q, c0, ss, if j < |ss| then j else 0);
    if j < |ss| - 1 {
      DialsStay(q, c0, ss, j, |ss| - 1);
    }
  }

  // ---------- which answers are worth another dial ----------

  /** A transport error that is transient; a timeout, a rate limit, a server's transient status or a
      missing model; a saturation or fault text; or, for a streaming request, a stream the relay failed. */
  predicate WorthAnother(q: Request, a: Answer, holdTimeout: int, attempt: nat, attempts: int) {
    match a
    case Unbuilt => false
    case TransportError(retryable) => retryable
    case HttpError(code, saturation, fault) => code in {404, 408, 429, 500, 502, 503, 504} || saturation || fault
    case Success(_, _, _, _, _) => q.streaming && Piped(q.texts, holdTimeout, attempt, attempts, a).failed
  }

  /** A fault, a missing model and a stream given up early get a second attempt in any case. */
  predicate AttemptsLeft(q: Request, a: Answer, holdTimeout: int, attempt: nat, attempts: int) {
    || attempt < attempts
    || (attempt < 2 && match a
                       case HttpError(code, _, fault) => fault || code == 404
                       case Success(_, _, _, _, _) => q.streaming && Piped(q.texts, holdTimeout, attempt, attempts, a).retryEarly
                       case _ => false)
  }

  /** How many of the dials up to the i-th were made on its leg. */
  function AttemptOf(dials: seq<Dial>, i: nat): nat
    requires i < |dials|
  {
    if i > 0 && dials[i - 1].leg == dials[i].leg then AttemptOf(dials, i - 1) + 1 else 1
  }

  /** The attempts a model gets when this one begins: the provider's retries and one more, and two at
      least through a strategy or when a first attempt was granted a second. */
  function AllowedAt(q: Request, attempt: nat): int {
    if q.cfg.None? && attempt <= 1 then q.provider.maxRetries + 1 else Max(q.provider.maxRetries + 1, 2)
  }

  /** Is the i-th dial one after which the request goes on? */
  predicate GoesOnAfter(q: Request, dials: seq<Dial>, i: nat)
    requires i < |dials|
  {
    var n, a, hold := AttemptOf(dials, i), AnswerTo(q.world, i), dials[i].provider.holdTimeout;
    WorthAnother(q, a, hold, n, AllowedAt(q, n)) && AttemptsLeft(q, a, hold, n, AllowedAt(q, n))
  }

  // ---------- one pass ----------

  lemma PassGoesOnIff(q: Request, s: State)
    requires s.v.attempt < s.v.attempts && (q.cfg.Some? ==> s.v.attempts >= 2)
    requires (s.v.skipSaturationWait || Gate(q.world, |s.v.dials|)) && !AnswerTo(q.world, |s.v.dials|).Unbuilt?
    ensures var n, m, a, hold := s.v.attempt + 1, s.v.attempts, AnswerTo(q.world, |s.v.dials|), s.v.prov.holdTimeout;
            Pass(q, s).Next? <==>
              WorthAnother(q, a, hold, n, m) && (AttemptsLeft(q, a, hold, n, m) || (a.Success? && n == m == 1))
  {
    var a := AnswerTo(q.world, |s.v.dials|);
    if a.Success? && q.streaming && Piped(q.texts, s.v.prov.holdTimeout, s.v.attempt + 1, s.v.attempts, a).retryEarly {
      EarlyRetryIsAllowed(q.texts, s.v.prov.holdTimeout, s.v.attempt + 1, s.v.attempts, a);
      EarlyRetryFails(q.texts, s.v.prov.holdTimeout, s.v.attempt + 1, s.v.attempts, a);
    }
  }

  lemma EarlyRetryFails(texts: Sse.Texts, holdTimeout: int, attempt: int, attempts: int, a: Answer)
    requires a.Success? && Piped(texts, holdTimeout, attempt, attempts, a).retryEarly
    ensures Piped(texts, holdTimeout, attempt, attempts, a).failed
  {
    var k := Sse.EarlyRetryMeansNoContent(
      Sse.Params(attempt < attempts, attempt == 1 && attempts <= 1, holdTimeout, texts), Sse.Feed(a.scanned, a.eofAt, a.ticks));
  }

  // ---------- attempts and budgets, from the dials ----------

  lemma PassCounts(q: Request, s: State)
    requires Pass(q, s).Next?
    ensures var s' := Pass(q, s).s;
            || (s'.v.leg == s.v.leg && s'.v.attempt == s.v.attempt + 1)
            || (s'.v.leg == s.v.leg + 1 && s'.v.attempt == 0)
  {
  }

  lemma {:induction false} AttemptIs(q: Request, c0: Core, ss: seq<State>, reply: Reply, final: State, i: nat)
    requires Ends(q, c0, ss, reply, final) && i < |final.v.dials| && i < |ss|
    ensures AttemptOf(final.v.dials, i) == ss[i].v.attempt + 1
  {
    DialIsMadeIn(q, c0, ss, reply, final, i);
    if i > 0 {
      DialIsMadeIn(q, c0, ss, reply, final, i - 1);
      AttemptIs(q, c0, ss, reply, final, i - 1);
      assert Leads(q, ss, i - 1);
      PassCounts(q, ss[i - 1]);
    }
  }

  lemma AllowedIs(q: Request, c0: Core, ss: seq<State>, i: nat)
    requires Proper(q, c0) && Course(q, c0, ss) && i < |ss| && ss[i].v.attempt < ss[i].v.attempts
    ensures ss[i].v.attempts == AllowedAt(q, ss[i].v.attempt + 1)
  {
    CourseIsSound(q, c0, ss, i);
    if q.cfg.None? && ss[i].v.attempt == 0 {
      PassMakesOneDial(q, c0, ss, i);
    }
  }

  /** The passes that dial. */
  lemma DialledPass(q: Request, c0: Core, ss: seq<State>, reply: Reply, final: State, i: nat)
    requires Ends(q, c0, ss, reply, final) && i < |final.v.dials|
    ensures i < |ss| && |ss[i].v.dials| == i && final.v.dials[i] == NextDial(q, ss[i])
    ensures ss[i].v.attempt < ss[i].v.attempts
    ensures (ss[i].v.skipSaturationWait || Gate(q.world, i)) && !AnswerTo(q.world, i).Unbuilt?
    ensures i < |ss| - 1 <==> Pass(q, ss[i]).Next?
  {
    DialIsMadeIn(q, c0, ss, reply, final, i);
    if i < |ss| - 1 {
      assert Leads(q, ss, i);
    } else {
      PassMakesOneDial(q, c0, ss, i);
      if ss[i].v.attempt < ss[i].v.attempts {
        DoneIs(q, ss[i]);
      }
    }
  }

  lemma HowManyDials(q: Request, c0: Core, ss: seq<State>, reply: Reply, final: State)
    requires Ends(q, c0, ss, reply, final)
    ensures |final.v.dials| == |ss| - 1 + if Counts(reply) && !reply.Exhausted? then 1 else 0
  {
    var s := ss[|ss| - 1];
    PassMakesOneDial(q, c0, ss, |ss| - 1);
    if s.v.attempt < s.v.attempts {
      DoneIs(q, s);
      if Counts(reply) {
        SettleKeepsVars(q, Answering(q, s), TokensFor(q, Answering(q, s), reply), RecordedAsFailure(reply), Checked(reply));
      }
    }
  }

  /** A request that does not run out of attempts had some left after every pass. */
  lemma MoreAttempts(q: Request, c0: Core, ss: seq<State>, reply: Reply, final: State, i: nat)
    requires Proper(q, c0) && Ends(q, c0, ss, reply, final) && i < |ss| - 1 && !reply.Exhausted?
    ensures AttemptsLeft(q, AnswerTo(q.world, |ss[i].v.dials|), ss[i].v.prov.holdTimeout, ss[i].v.attempt + 1, ss[i].v.attempts)
  {
    assert Leads(q, ss, i) && Leads(q, ss, i + 1);
    CourseIsSound(q, c0, ss, i);
    LeftOver(q, ss[i]);
  }

  lemma LeftOver(q: Request, s: State)
    requires s.v.attempt < s.v.attempts && Pass(q, s).Next? && Pass(q, s).s.v.attempt < Pass(q, s).s.v.attempts
    requires q.cfg.Some? ==> s.v.attempts >= 2
    ensures AttemptsLeft(q, AnswerTo(q.world, |s.v.dials|), s.v.prov.holdTimeout, s.v.attempt + 1, s.v.attempts)
  {
    var a := AnswerTo(q.world, |s.v.dials|);
    if a.Success? && q.streaming && Piped(q.texts, s.v.prov.holdTimeout, s.v.attempt + 1, s.v.attempts, a).retryEarly {
      EarlyRetryIsAllowed(q.texts, s.v.prov.holdTimeout, s.v.attempt + 1, s.v.attempts, a);
    }
  }

  /** When a request dials again: after exactly those answers that are worth it, while attempts are left.
      So every dial but the last is such a one, and the last is not, unless the request was cancelled or
      could not be built after it. */
  lemma DialsAgainIff(q: Request, c0: Core, ss: seq<State>, reply: Reply, final: State, i: nat)
    requires Proper(q, c0) && Ends(q, c0, ss, reply, final) && i < |final.v.dials| && !reply.Exhausted?
    ensures GoesOnAfter(q, final.v.dials, i) <==> i < |final.v.dials| - 1 || reply.Cancelled? || reply.NotBuilt?
  {
    DialledPass(q, c0, ss, reply, final, i);
    AttemptIs(q, c0, ss, reply, final, i);
    AllowedIs(q, c0, ss, i);
    CourseIsSound(q, c0, ss, i);
    HowManyDials(q, c0, ss, reply, final);
    EndIsOver(q, c0, ss, reply, final);
    PassGoesOnIff(q, ss[i]);
    if i < |ss| - 1 {
      MoreAttempts(q, c0, ss, reply, final, i);
    }
  }

  // ---------- the saturation gate ----------

  predicate Saturated(a: Answer) {
    a.HttpError? && (a.code == 429 || a.saturationText)
  }

  lemma PassSkips(q: Request, s: State)
    requires Pass(q, s).Next?
    ensures Pass(q, s).s.v.skipSaturationWait <==> Pass(q, s).s.v.leg == s.v.leg && Saturated(AnswerTo(q.world, |s.v.dials|))
  {
  }

  /** Has the upstream just said to this model that it is saturated? */
  predicate JustSaturated(w: World, dials: seq<Dial>, n: nat, leg: nat)
    requires n <= |dials|
  {
    n > 0 && dials[n - 1].leg == leg && Saturated(AnswerTo(w, n - 1))
  }

  lemma SkipIs(q: Request, c0: Core, ss: seq<State>, i: nat)
    requires Course(q, c0, ss) && i < |ss|
    ensures |ss[i].v.dials| == i
    ensures ss[i].v.skipSaturationWait <==> JustSaturated(q.world, ss[i].v.dials, i, ss[i].v.leg)
  {
    PassMakesOneDial(q, c0, ss, i);
    if i > 0 {
      assert Leads(q, ss, i - 1);
      PassMakesOneDial(q, c0, ss, i - 1);
      PassSkips(q, ss[i - 1]);
      NextDials(q, ss[i - 1]);
    }
  }

  /** Every dial has passed the saturation gate, unless the model has just answered the one before it that it
      is saturated. */
  lemma GateIsAsked(q: Request, c0: Core, ss: seq<State>, reply: Reply, final: State, i: nat)
    requires Ends(q, c0, ss, reply, final) && i < |final.v.dials|
    ensures Gate(q.world, i) || JustSaturated(q.world, final.v.dials, i, final.v.dials[i].leg)
  {
    DialledPass(q, c0, ss, reply, final, i);
    SkipIs(q, c0, ss, i);
    if i > 0 {
      DialledPass(q, c0, ss, reply, final, i - 1);
      DialIsMadeIn(q, c0, ss, reply, final, i - 1);
      assert Leads(q, ss, i - 1);
      NextDials(q, ss[i - 1]);
    }
  }

  /** A request is cancelled only where the gate does not let it through. */
  lemma CancelledAtGate(q: Request, c0: Core, ss: seq<State>, reply: Reply, final: State)
    requires Ends(q, c0, ss, reply, final)
    ensures var n := |final.v.dials|;
            && (reply.Cancelled? ==> !Gate(q.world, n) && !JustSaturated(q.world, final.v.dials, n, final.v.leg))
            && (reply.NotBuilt? ==> AnswerTo(q.world, n).Unbuilt?)
  {
    var s := ss[|ss| - 1];
    SkipIs(q, c0, ss, |ss| - 1);
    if s.v.attempt < s.v.attempts {
      DoneIs(q, s);
    }
  }

  // ---------- where the request goes ----------

  /** The errors for which a strategy request leaves its model: saturation, a server error, a fault and a
      missing model. */
  predicate Repels(a: Answer) {
    a.HttpError? && (a.code == 429 || a.saturationText || 500 <= a.code < 600 || a.faultText || a.code == 404)
  }

  /** What a strategy request does to its strategy before it dials again, from moment t on. */
  function Reactions(q: Request, model: string, a: Answer, early: bool, t: nat): seq<Event> {
    if Repels(a) then
      [Event(Clock(q.world, t + 1), Action.Force(model)), Event(Clock(q.world, t + 2), Action.Route(q.session, Draw(q.world, t + 2)))]
    else if a.Success? && !early then
      [Event(Clock(q.world, t + 1), Action.Check(model)), Event(Clock(q.world, t + 2), Action.Force(model)),
       Event(Clock(q.world, t + 3), Action.Route(q.session, Draw(q.world, t + 3)))]
    else []
  }

  predicate GivenUpEarly(q: Request, s: State) {
    var a := AnswerTo(q.world, |s.v.dials|);
    a.Success? && Piped(q.texts, s.v.prov.holdTimeout, s.v.attempt + 1, s.v.attempts, a).retryEarly
  }

  /** The answers for which a strategy request forces its model's breaker open: while attempts are left,
      an error that re-routes, and a stream that failed and was not given up early. */
  predicate Forcing(q: Request, attempt: nat, holdTimeout: int, a: Answer) {
    && attempt < BudgetOf(q)
    && match a
       case HttpError(_, _, _) => Retriable(a) && Reroutes(a)
       case Success(_, _, _, _, _) =>
         q.streaming && Piped(q.texts, holdTimeout, attempt, BudgetOf(q), a).failed && !Piped(q.texts, holdTimeout, attempt, BudgetOf(q), a).retryEarly
       case _ => false
  }

  /** The answer to the dial made from this state forces the model open. */
  predicate ForcedFrom(q: Request, s: State) {
    Forcing(q, s.v.attempt + 1, s.v.prov.holdTimeout, AnswerTo(q.world, |s.v.dials|))
  }

  /** The pass from s leaves the model, or tries to, from this state. */
  function Leaving(q: Request, s: State): State
    requires q.cfg.Some?
  {
    var d, a := JustDialled(q, s), AnswerTo(q.world, |s.v.dials|);
    if a.HttpError? then d.(v := d.v.(skipSaturationWait := IsSaturation(a))) else Act(q, d, Action.Check(d.v.model))
  }

  /** A pass that goes on either forces the model open and routes again, or does nothing to the strategy. */
  lemma PassForces(q: Request, s: State)
    requires q.cfg.Some? && s.v.attempts == BudgetOf(q) && Pass(q, s).Next?
    ensures var s' := Pass(q, s).s;
            if ForcedFrom(q, s) then s' == LeaveModel(q, Leaving(q, s))
            else s' == JustDialled(q, s).(v := JustDialled(q, s).v.(skipSaturationWait := s'.v.skipSaturationWait))
  {
  }

  lemma ForcedIff(q: Request, s: State)
    requires q.cfg.Some? && s.v.attempts == BudgetOf(q) && Pass(q, s).Next?
    ensures var a := AnswerTo(q.world, |s.v.dials|);
            ForcedFrom(q, s) <==> Repels(a) || (a.Success? && !GivenUpEarly(q, s))
  {
  }

  /** The two events of a re-route, and where it leads. */
  lemma LeaveReacts(q: Request, d: State)
    requires q.cfg.Some?
    ensures var s', b := LeaveModel(q, d), Act(q, d, Action.Force(d.v.model));
            var next := ChoiceNow(q, b);
            && s'.mine == d.mine + [Event(Clock(q.world, d.v.t + 1), Action.Force(d.v.model))]
                          + [Event(Clock(q.world, d.v.t + 2), Action.Route(q.session, Draw(q.world, d.v.t + 2)))]
            && (if next.Some? && next.value.model != d.v.model then
                  s'.v.model == next.value.model && s'.v.prov == next.value.provider && s'.v.leg == d.v.leg + 1
                else s'.v.model == d.v.model && s'.v.prov == d.v.prov && s'.v.leg == d.v.leg)
  {
  }

  /** From s to s' a strategy request has made these events. The last of them, if there are any, is a
      routing decision, made when the request and its strategy stood at b; and the request goes where that
      decision says. */
  ghost predicate Moves(q: Request, c0: Core, s: State, s': State, evs: seq<Event>, b: State)
    requires q.cfg.Some?
  {
    && s'.mine == s.mine + evs
    && if evs == [] then Stays(s, s')
       else
         && Logged(q, c0, b) && b.mine == s.mine + evs[..|evs| - 1]
         && Follows(ChoiceNow(q, b), s, s')
  }

  predicate Follows(next: Option<Choice>, s: State, s': State) {
    if next.Some? && next.value.model != s.v.model then
      s'.v.model == next.value.model && s'.v.prov == next.value.provider && s'.v.leg == s.v.leg + 1
    else Stays(s, s')
  }

  predicate Stays(s: State, s': State) {
    s'.v.model == s.v.model && s'.v.prov == s.v.prov && s'.v.leg == s.v.leg
  }

  lemma LeavingLogs(q: Request, c0: Core, s: State)
    requires q.cfg.Some? && Logged(q, c0, s)
    ensures Logged(q, c0, Leaving(q, s))
  {
    ActLogs(q, c0, JustDialled(q, s), Action.Check(s.v.model));
  }

  /** What is done before a pass leaves its model: the check after a failed stream. */
  lemma LeavingIs(q: Request, s: State)
    requires q.cfg.Some?
    ensures var d := Leaving(q, s);
            && d.v.model == s.v.model && d.v.prov == s.v.prov && d.v.leg == s.v.leg
            && if AnswerTo(q.world, |s.v.dials|).HttpError? then d.mine == s.mine && d.v.t == s.v.t
               else d.mine == s.mine + [Event(Clock(q.world, s.v.t + 1), Action.Check(s.v.model))] && d.v.t == s.v.t + 1
  {
  }

  lemma ForcedMoves(q: Request, c0: Core, s: State) returns (b: State)
    requires q.cfg.Some? && Logged(q, c0, s) && ForcedFrom(q, s) && !GivenUpEarly(q, s)
    requires var a := AnswerTo(q.world, |s.v.dials|); a.HttpError? ==> Repels(a)
    ensures Moves(q, c0, s, LeaveModel(q, Leaving(q, s)), Reactions(q, s.v.model, AnswerTo(q.world, |s.v.dials|), false, s.v.t), b)
  {
    var d := Leaving(q, s);
    LeavingLogs(q, c0, s);
    LeavingIs(q, s);
    LeaveReacts(q, d);
    ActLogs(q, c0, d, Action.Force(d.v.model));
    b := Act(q, d, Action.Force(d.v.model));
    InOrder(q, s, d, b);
  }

  lemma InOrder(q: Request, s: State, d: State, b: State)
    requires q.cfg.Some? && d == Leaving(q, s) && b == Act(q, d, Action.Force(d.v.model)) && ForcedFrom(q, s) && !GivenUpEarly(q, s)
    requires var a := AnswerTo(q.world, |s.v.dials|); a.HttpError? ==> Repels(a)
    ensures var evs := Reactions(q, s.v.model, AnswerTo(q.world, |s.v.dials|), false, s.v.t);
            && b.mine == s.mine + evs[..|evs| - 1]
            && d.mine + [Event(Clock(q.world, d.v.t + 1), Action.Force(d.v.model))]
               + [Event(Clock(q.world, d.v.t + 2), Action.Route(q.session, Draw(q.world, d.v.t + 2)))] == s.mine + evs
  {
    LeavingIs(q, s);
  }

  /** After an answer that repels, the model is forced open and the strategy routed again, after a failed
      stream it is checked first, and nothing is done after any other. The request moves exactly if the
      strategy, as its log then has it, names another model. */
  lemma MovesWhereRouted(q: Request, c0: Core, ss: seq<State>, i: nat, s: State, s': State) returns (b: State)
    requires Proper(q, c0) && q.cfg.Some? && Course(q, c0, ss) && i + 1 < |ss| && s == ss[i] && s' == ss[i + 1]
    ensures Moves(q, c0, s, s', Reactions(q, s.v.model, AnswerTo(q.world, i), GivenUpEarly(q, s), q.begun + |s.mine|), b)
  {
    OnePass(q, c0, ss, i, s, s');
    b := PassMoves(q, c0, s, s', AnswerTo(q.world, i), q.begun + |s.mine|);
  }

  lemma OnePass(q: Request, c0: Core, ss: seq<State>, i: nat, s: State, s': State)
    requires Proper(q, c0) && q.cfg.Some? && Course(q, c0, ss) && i + 1 < |ss| && s == ss[i] && s' == ss[i + 1]
    ensures |s.v.dials| == i && s.v.t == q.begun + |s.mine|
    ensures Logged(q, c0, s) && s.v.attempts == BudgetOf(q) && Pass(q, s) == Next(s')
  {
    PassMakesOneDial(q, c0, ss, i);
    CourseIsSound(q, c0, ss, i);
    assert Leads(q, ss, i);
  }

  lemma PassMoves(q: Request, c0: Core, s: State, s': State, a: Answer, t: nat) returns (b: State)
    requires q.cfg.Some? && Logged(q, c0, s) && s.v.attempts == BudgetOf(q) && Pass(q, s) == Next(s')
    requires a == AnswerTo(q.world, |s.v.dials|) && t == s.v.t
    ensures Moves(q, c0, s, s', Reactions(q, s.v.model, a, GivenUpEarly(q, s), t), b)
  {
    b := s;
    PassForces(q, s);
    ForcedIff(q, s);
    if ForcedFrom(q, s) {
      EarlyIsNotForced(q, s);
      b := ForcedMoves(q, c0, s);
    }
  }

  lemma EarlyIsNotForced(q: Request, s: State)
    requires q.cfg.Some? && s.v.attempts == BudgetOf(q) && ForcedFrom(q, s)
    ensures !GivenUpEarly(q, s)
    ensures var a := AnswerTo(q.world, |s.v.dials|); a.HttpError? ==> Repels(a)
  {
  }

  // ---------- what is recorded ----------

  /** The tokens of a reply: those of a body that was read, and those of a stream's last usage. */
  function TokensUsed(q: Request, reply: Reply, final: State): int {
    var a := final.v.last;
    if !a.Success? then 0
    else
      match reply
      case Answered => a.tokens
      case Streamed(_) =>
        var u := Piped(q.texts, final.v.prov.holdTimeout, final.v.attempt, final.v.attempts, a).usage;
        if u.Some? then u.value.prompt + u.value.completion else 0
      case _ => 0
  }

  lemma SettleRecords(q: Request, s: State, tokens: int, failed: bool, check: bool)
    requires q.cfg.Some?
    ensures var final := Settle(q, s, tokens, failed, check);
            var o := Outcome(Elapsed(q, s.v.t), tokens, failed);
            final.mine == s.mine + [Event(Clock(q.world, s.v.t + 1), Action.Record(s.v.model, o))]
                          + (if check then [Event(Clock(q.world, s.v.t + 2), Action.Check(s.v.model))] else [])
  {
  }

  lemma TokensAgree(q: Request, d: State, reply: Reply, final: State)
    requires final.v == d.v.(t := final.v.t)
    ensures TokensFor(q, d, reply) == TokensUsed(q, reply, final)
  {
  }

  lemma ElapsedIs(q: Request, t: nat)
    requires Orderly(q.world) && q.begun <= t
    ensures Elapsed(q, t) == Clock(q.world, t) - Clock(q.world, q.begun)
  {
    assert Clock(q.world, q.begun) <= Clock(q.world, t);
  }

  /** The one outcome of a counted strategy request: that of its last model, with the time since the request
      began, the tokens used, and the error flag exactly for a transport error or a refusal; the check that
      follows it exactly for these, a failed stream and a body that could not be read. */
  lemma OutcomeIsTrue(q: Request, c0: Core, ss: seq<State>, reply: Reply, final: State)
    requires Proper(q, c0) && q.cfg.Some? && Ends(q, c0, ss, reply, final) && Counts(reply)
    ensures var mine, m := ss[|ss| - 1].mine, final.v.model;
            var t := q.begun + |mine|;
            var failed := reply.TransportFailed? || reply.Refused?;
            && 0 <= Clock(q.world, t) - Clock(q.world, q.begun)
            && var record := Action.Record(m, Outcome(Clock(q.world, t) - Clock(q.world, q.begun), TokensUsed(q, reply, final), failed));
               final.mine == mine + [Event(Clock(q.world, t + 1), record)]
                             + (if failed || reply.ReadFailed? || reply == Streamed(true) then [Event(Clock(q.world, t + 2), Action.Check(m))] else [])
  {
    var s := ss[|ss| - 1];
    var d := Answering(q, s);
    AnsweringEnds(q, c0, ss, reply, final);
    SettleKeepsVars(q, d, TokensFor(q, d, reply), RecordedAsFailure(reply), Checked(reply));
    SettleRecords(q, d, TokensFor(q, d, reply), RecordedAsFailure(reply), Checked(reply));
    TokensAgree(q, d, reply, final);
    ElapsedIs(q, s.v.t);
  }

  lemma AnsweringEnds(q: Request, c0: Core, ss: seq<State>, reply: Reply, final: State)
    requires Proper(q, c0) && q.cfg.Some? && Ends(q, c0, ss, reply, final) && Counts(reply)
    ensures var s := ss[|ss| - 1];
            var d := Answering(q, s);
            && final == Settle(q, d, TokensFor(q, d, reply), RecordedAsFailure(reply), Checked(reply))
            && d.mine == s.mine && d.v.t == s.v.t == q.begun + |s.mine| && d.v.model == s.v.model
  {
    CourseIsSound(q, c0, ss, |ss| - 1);
    DoneIs(q, ss[|ss| - 1]);
  }
}
