/** One request through the retry and re-route loop of forwardChat (internal/modelproxy/proxy.go): what
    a pass through the loop makes of the request's variables and of the strategy, as a function of the
    world. */
module Serving {
  import opened Text
  import opened Breakers
  import opened Router
  import opened Legs
  import opened Upstream
  import Sse

  /** A request: its strategy, if it has one, the model and provider it was first routed to, and the
      moment at which forwardChat begins. */
  datatype Request = Request(cfg: Option<Config>, model: string, provider: Provider, streaming: bool, session: string,
                             texts: Sse.Texts, world: World, begun: nat)

  /** The variables of the retry loop; t is the moment of the last locked section, leg counts the
      re-routes. */
  datatype Vars = Vars(model: string, prov: Provider, attempts: int, attempt: nat, skipSaturationWait: bool, t: nat,
                       dials: seq<Dial>, last: Answer, leg: nat)

  /** The variables together with what they do not hold: the strategy as the last locked section left
      it, this request's events on it, the legs left and the start of the one under way. */
  datatype State = State(v: Vars, core: Core, mine: seq<Event>, left: seq<Leg>, start: int)

  /** The end of a pass. */
  datatype Passed = Done(reply: Reply, s: State) | Next(s: State)

  // ---------- locked sections ----------

  /** The strategy as this request finds it at its next locked section. */
  function Found(cfg: Config, c: Core, w: World, t: nat): Core {
    Run(cfg, c, OthersAt(w, t))
  }

  /** One locked section of this request, a moment later. */
  function Act(q: Request, s: State, a: Action): State
    requires q.cfg.Some?
  {
    var e := Event(Clock(q.world, s.v.t + 1), a);
    s.(v := s.v.(t := s.v.t + 1), core := Step(q.cfg.value, Found(q.cfg.value, s.core, q.world, s.v.t), e), mine := s.mine + [e])
  }

  /** What routing again would choose now, and the section that does it. */
  function ChoiceNow(q: Request, s: State): Option<Choice>
    requires q.cfg.Some?
  {
    RouteChoice(q.cfg.value, Found(q.cfg.value, s.core, q.world, s.v.t), q.session, Draw(q.world, s.v.t + 1), Clock(q.world, s.v.t + 1))
  }

  function RouteNow(q: Request, s: State): State
    requires q.cfg.Some?
  {
    Act(q, s, Action.Route(q.session, Draw(q.world, s.v.t + 1)))
  }

  /** The re-route block: the current model is forced open and the strategy routed again; when that
      yields another model, the request starts over with it. */
  function LeaveModel(q: Request, s: State): State
    requires q.cfg.Some?
  {
    var forced := Act(q, s, Action.Force(s.v.model));
    var choice, routed := ChoiceNow(q, forced), RouteNow(q, forced);
    if choice.Some? && choice.value.model != s.v.model then MoveTo(q, s, routed, choice.value, forced.v.t) else routed
  }

  function MoveTo(q: Request, s: State, routed: State, next: Choice, closed: nat): State {
    routed.(v := routed.v.(model := next.model, prov := next.provider, attempt := 0, skipSaturationWait := false, leg := s.v.leg + 1),
            left := s.left + [Leg(s.v.model, s.start, Clock(q.world, closed))], start := Clock(q.world, routed.v.t))
  }

  /** The time since forwardChat began. */
  function Elapsed(q: Request, t: nat): nat {
    var d := Clock(q.world, t) - Clock(q.world, q.begun);
    if d < 0 then 0 else d
  }

  /** The end of a counted request: its outcome is recorded and, if asked, its model checked. */
  function Settle(q: Request, s: State, tokens: int, failed: bool, check: bool): State {
    if q.cfg.None? then s
    else
      var recorded := Act(q, s, Action.Record(s.v.model, Outcome(Elapsed(q, s.v.t), tokens, failed)));
      if check then Act(q, recorded, Action.Check(s.v.model)) else recorded
  }

  // ---------- one answer ----------

  /** The statuses and texts that are retried. */
  predicate Retriable(a: Answer) {
    match a
    case HttpError(code, saturation, fault) => TransientStatus(code) || saturation || fault || code == 404
    case _ => false
  }

  /** A fault or a missing model lifts a single-attempt budget to two. */
  predicate Lifts(a: Answer) {
    a.HttpError? && (a.faultText || a.code == 404)
  }

  predicate IsSaturation(a: Answer) {
    a.HttpError? && (a.code == 429 || a.saturationText)
  }

  /** The errors for which a strategy request leaves its model. */
  predicate Reroutes(a: Answer) {
    a.HttpError? && (IsSaturation(a) || 500 <= a.code < 600 || a.faultText || a.code == 404)
  }

  /** What the relay makes of a stream, with so many attempts made of so many. */
  function Piped(texts: Sse.Texts, holdTimeout: int, attempt: int, attempts: int, a: Answer): Sse.Result
    requires a.Success?
  {
    Sse.Pipe(Sse.Params(attempt < attempts, attempt == 1 && attempts <= 1, holdTimeout, texts), Sse.Feed(a.scanned, a.eofAt, a.ticks))
  }

  function TokensOf(u: Option<Sse.Usage>): int {
    if u.Some? then u.value.prompt + u.value.completion else 0
  }

  function Lifted(attempts: int): int {
    if attempts < 2 then 2 else attempts
  }

  function OnTransportError(q: Request, s: State, retryable: bool): Passed {
    if s.v.attempt < s.v.attempts && retryable then Next(s)
    else Done(TransportFailed, Settle(q, s, 0, true, true))
  }

  function OnHttpError(q: Request, s: State, a: Answer): Passed
    requires a.HttpError?
  {
    var attempts := if Lifts(a) then Lifted(s.v.attempts) else s.v.attempts;
    var r := s.(v := s.v.(attempts := attempts));
    if s.v.attempt < attempts && Retriable(a) then
      var again := r.(v := r.v.(skipSaturationWait := IsSaturation(a)));
      Next(if q.cfg.Some? && Reroutes(a) then LeaveModel(q, again) else again)
    else Done(Refused(a.code), Settle(q, r, 0, true, true))
  }

  function OnStream(q: Request, s: State, a: Answer): Passed
    requires a.Success?
  {
    var r := Piped(q.texts, s.v.prov.holdTimeout, s.v.attempt, s.v.attempts, a);
    if r.retryEarly then Next(s.(v := s.v.(attempts := Lifted(s.v.attempts))))
    else OnRelayed(q, s, r)
  }

  /** A stream that was not given up for an early retry. */
  function OnRelayed(q: Request, s: State, r: Sse.Result): Passed {
    if r.failed && (s.v.attempt < s.v.attempts || s.v.attempt == s.v.attempts == 1) then
      Next(if q.cfg.Some? then LeaveModel(q, Act(q, s, Action.Check(s.v.model))) else s)
    else Done(Streamed(r.failed), Settle(q, s, TokensOf(r.usage), false, r.failed))
  }

  function OnBody(q: Request, s: State, a: Answer): Passed
    requires a.Success?
  {
    if a.readOK then Done(Answered, Settle(q, s, a.tokens, false, false))
    else Done(ReadFailed, Settle(q, s, 0, false, true))
  }

  function OnAnswer(q: Request, s: State, a: Answer): Passed
    requires !a.Unbuilt?
  {
    match a
    case TransportError(retryable) => OnTransportError(q, s, retryable)
    case HttpError(_, _, _) => OnHttpError(q, s, a)
    case Success(_, _, _, _, _) => if q.streaming then OnStream(q, s, a) else OnBody(q, s, a)
  }

  // ---------- the loop ----------

  function Dialled(w: World, v: Vars): Vars {
    v.(attempt := v.attempt + 1, skipSaturationWait := false, last := AnswerTo(w, |v.dials|),
       dials := v.dials + [Dial(v.model, v.prov, Clock(w, v.t), v.leg)])
  }

  /** One pass through the loop. */
  function Pass(q: Request, s: State): Passed {
    var answer := AnswerTo(q.world, |s.v.dials|);
    if !s.v.skipSaturationWait && !Gate(q.world, |s.v.dials|) then Done(Cancelled, s)
    else if answer.Unbuilt? then Done(NotBuilt, s)
    else OnAnswer(q, s.(v := Dialled(q.world, s.v)), answer)
  }

  function FirstVars(q: Request): Vars {
    var attempts := q.provider.maxRetries + 1;
    Vars(q.model, q.provider, if q.cfg.Some? then Lifted(attempts) else attempts, 0, false, q.begun, [], Unbuilt, 0)
  }

  function First(q: Request, c0: Core): State {
    State(FirstVars(q), c0, [], [], Clock(q.world, q.begun))
  }

  /** The i-th pass has attempts left and leads from one state to the next. */
  ghost predicate Leads(q: Request, ss: seq<State>, i: int) {
    0 <= i < |ss| - 1 ==> ss[i].v.attempt < ss[i].v.attempts && Pass(q, ss[i]) == Next(ss[i + 1])
  }

  /** The states before each pass of a request, as far as it has got. */
  ghost predicate Course(q: Request, c0: Core, ss: seq<State>) {
    && ss != [] && ss[0] == First(q, c0)
    && forall i {:trigger Leads(q, ss, i)} :: Leads(q, ss, i)
  }

  /** The request takes this course and ends with this reply and in this state: in the middle of a
      pass, or because no attempts are left for it. */
  ghost predicate Ends(q: Request, c0: Core, ss: seq<State>, reply: Reply, final: State) {
    && Course(q, c0, ss)
    && var s := ss[|ss| - 1];
       if s.v.attempt < s.v.attempts then Pass(q, s) == Done(reply, final) else reply == Exhausted && final == s
  }

  lemma CourseGoesOn(q: Request, c0: Core, ss: seq<State>, s': State)
    requires Course(q, c0, ss)
    requires var s := ss[|ss| - 1]; s.v.attempt < s.v.attempts && Pass(q, s) == Next(s')
    ensures Course(q, c0, ss + [s'])
  {
    forall i ensures Leads(q, ss + [s'], i) {
      assert Leads(q, ss, i);
    }
  }

  /** What a request does is determined: two courses agree as far as both go. */
  lemma {:induction false} OneCourse(q: Request, c0: Core, a: seq<State>, b: seq<State>, i: nat)
    requires Course(q, c0, a) && Course(q, c0, b) && i < |a| && i < |b|
    ensures a[i] == b[i]
  {
    if i > 0 {
      OneCourse(q, c0, a, b, i - 1);
      assert Leads(q, a, i - 1) && Leads(q, b, i - 1);
    }
  }
}
