/** Why the retry loop needs a bound on the request's duration (internal/modelproxy/proxy.go,
    forwardChat): two models that take turns in failing are re-routed between for ever, once every
    failure takes longer than a cooldown, because each re-route starts over with a full budget. */
module Endless {
  import opened Text
  import opened Breakers
  import opened Router
  import opened Upstream
  import opened Serving
  import Sse

  /** A fallback strategy of two models, both served. */
  ghost predicate TwoModels(cfg: Config, c: Core) {
    && cfg.kind.Fallback? && |cfg.models| == 2
    && cfg.models[0].id != cfg.models[1].id && cfg.models[0].id != "" && cfg.models[1].id != ""
    && ProviderFor(cfg.models, cfg.providers, cfg.models[0].id).Some? && ProviderFor(cfg.models, cfg.providers, cfg.models[1].id).Some?
    && cfg.models[0].id in c.cells && cfg.models[1].id in c.cells
  }

  predicate NoneBlocked(cfg: Config, c: Core, now: int)
    requires |cfg.models| == 2
  {
    !Blocked(c, cfg.models[0].id, now) && !Blocked(c, cfg.models[1].id, now)
  }

  /** The model dialled before the k-th re-route, and the moment of that re-route. */
  function Turn(cfg: Config, k: nat): string
    requires |cfg.models| == 2
  {
    cfg.models[k % 2].id
  }

  function Moment(k: nat): int {
    k * (COOLDOWN + 1)
  }

  /** A world in which nobody else acts, every dial is answered by a server error, and a little more than
      a cooldown passes before each of them. */
  function Failing(): World {
    World((n: nat) => Moment((n + 1) / 2), (n: nat) => HttpError(500, false, false), (n: nat) => true, (n: nat) => 0, (n: nat) => [])
  }

  function Asking(cfg: Config, p: Provider, streaming: bool, session: string, texts: Sse.Texts): Request
    requires |cfg.models| == 2
  {
    Request(Some(cfg), Turn(cfg, 0), p, streaming, session, texts, Failing(), 0)
  }

  /** One round moves to the other model, and a cooldown later neither is blocked. */
  lemma RoundSwitches(cfg: Config, c: Core, session: string, p: nat, now: int)
    requires TwoModels(cfg, c) && p < 2 && !Blocked(c, cfg.models[1 - p].id, now)
    ensures var c1 := Step(cfg, c, Event(now, Action.Force(cfg.models[p].id)));
            var r := RouteChoice(cfg, c1, session, 0, now);
            var c2 := Step(cfg, c1, Event(now, Action.Route(session, 0)));
            && r.Some? && r.value.model == cfg.models[1 - p].id
            && TwoModels(cfg, c2) && NoneBlocked(cfg, c2, now + COOLDOWN + 1)
  {
    var a, b := cfg.models[p].id, cfg.models[1 - p].id;
    var c1 := Step(cfg, c, Event(now, Action.Force(a)));
    assert Blocked(c1, a, now) && !Blocked(c1, b, now);
    FallbackTakesFirst(cfg, c1, session, 0, now, 1 - p);
    FromTheTop(cfg, 0);
    FromTheTop(cfg, 1);
    assert FirstRoutable(cfg, c1, 0, 0, now) == Some(1 - p);
    assert IdAt(cfg, 0, 1 - p) == b;
  }

  lemma OtherTurn(cfg: Config, n: nat)
    requires |cfg.models| == 2
    ensures Turn(cfg, n) == cfg.models[n % 2].id && Turn(cfg, n + 1) == cfg.models[1 - n % 2].id
  {
  }

  lemma FailingClock(n: nat)
    ensures Clock(Failing(), 2 * n + 1) == Clock(Failing(), 2 * n + 2) == Moment(n + 1)
    ensures Moment(n + 2) == Moment(n + 1) + COOLDOWN + 1
  {
    assert (2 * n + 2) / 2 == n + 1 && (2 * n + 3) / 2 == n + 1;
  }

  /** Where the request stands after n re-routes: with the other model and all its attempts. */
  ghost predicate Standing(cfg: Config, s: State, n: nat) {
    && TwoModels(cfg, s.core) && NoneBlocked(cfg, s.core, Moment(n + 1))
    && s.v.t == 2 * n && s.v.model == Turn(cfg, n) && s.v.attempt == 0 && s.v.attempts >= 2 && |s.v.dials| == n
  }

  /** A server error with attempts left makes a strategy request leave its model. */
  lemma ServerErrorLeaves(q: Request, s: State)
    requires q.cfg.Some? && Gate(q.world, |s.v.dials|) && AnswerTo(q.world, |s.v.dials|) == HttpError(500, false, false)
    requires s.v.attempt + 1 < s.v.attempts
    ensures Pass(q, s) == Next(LeaveModel(q, s.(v := Dialled(q.world, s.v))))
  {
  }

  lemma LeavesAlone(q: Request, d: State, c1: Core, next: Choice)
    requires q.cfg.Some? && OthersAt(q.world, d.v.t) == [] && OthersAt(q.world, d.v.t + 1) == []
    requires c1 == Step(q.cfg.value, d.core, Event(Clock(q.world, d.v.t + 1), Action.Force(d.v.model)))
    requires RouteChoice(q.cfg.value, c1, q.session, Draw(q.world, d.v.t + 2), Clock(q.world, d.v.t + 2)) == Some(next) && next.model != d.v.model
    ensures var s' := LeaveModel(q, d);
            && s'.core == Step(q.cfg.value, c1, Event(Clock(q.world, d.v.t + 2), Action.Route(q.session, Draw(q.world, d.v.t + 2))))
            && s'.v.t == d.v.t + 2 && s'.v.model == next.model && s'.v.attempt == 0
            && s'.v.attempts == d.v.attempts && s'.v.dials == d.v.dials
  {
  }

  /** And it moves to the other of two models when that is not blocked. */
  lemma LeavingMoves(cfg: Config, q: Request, s: State, n: nat)
    requires q.cfg == Some(cfg) && q.world == Failing() && Standing(cfg, s, n)
    ensures Standing(cfg, LeaveModel(q, s.(v := Dialled(q.world, s.v))), n + 1)
  {
    var d := s.(v := Dialled(q.world, s.v));
    FailingClock(n);
    OtherTurn(cfg, n);
    RoundSwitches(cfg, d.core, q.session, n % 2, Moment(n + 1));
    var c1 := Step(cfg, d.core, Event(Moment(n + 1), Action.Force(d.v.model)));
    LeavesAlone(q, d, c1, RouteChoice(cfg, c1, q.session, 0, Moment(n + 1)).value);
  }

  lemma PassMoves(cfg: Config, p: Provider, streaming: bool, session: string, texts: Sse.Texts, s: State, n: nat)
    requires |cfg.models| == 2 && Standing(cfg, s, n)
    ensures var q := Asking(cfg, p, streaming, session, texts);
            Pass(q, s).Next? && Standing(cfg, Pass(q, s).s, n + 1)
  {
    var q := Asking(cfg, p, streaming, session, texts);
    ServerErrorLeaves(q, s);
    LeavingMoves(cfg, q, s, n);
  }

  /** For every n: after n passes the request goes on to another, each with another model than the last. */
  lemma {:induction false} ReroutesForEver(cfg: Config, c0: Core, p: Provider, streaming: bool, session: string, texts: Sse.Texts, n: nat)
    returns (ss: seq<State>)
    requires TwoModels(cfg, c0) && NoneBlocked(cfg, c0, Moment(1))
    ensures var q := Asking(cfg, p, streaming, session, texts);
            && Course(q, c0, ss) && |ss| == n + 1 && Standing(cfg, ss[n], n) && Pass(q, ss[n]).Next?
  {
    var q := Asking(cfg, p, streaming, session, texts);
    if n == 0 {
      ss := [First(q, c0)];
    } else {
      ss := ReroutesForEver(cfg, c0, p, streaming, session, texts, n - 1);
      PassMoves(cfg, p, streaming, session, texts, ss[n - 1], n - 1);
      CourseGoesOn(q, c0, ss, Pass(q, ss[n - 1]).s);
      ss := ss + [Pass(q, ss[n - 1]).s];
    }
    PassMoves(cfg, p, streaming, session, texts, ss[n], n);
  }

  /** So it never ends. */
  lemma NeverEnds(cfg: Config, c0: Core, p: Provider, streaming: bool, session: string, texts: Sse.Texts,
                  ss: seq<State>, reply: Reply, final: State)
    requires TwoModels(cfg, c0) && NoneBlocked(cfg, c0, Moment(1))
    ensures !Ends(Asking(cfg, p, streaming, session, texts), c0, ss, reply, final)
  {
    var q := Asking(cfg, p, streaming, session, texts);
    if Ends(q, c0, ss, reply, final) {
      var forever := ReroutesForEver(cfg, c0, p, streaming, session, texts, |ss| - 1);
      OneCourse(q, c0, ss, forever, |ss| - 1);
    }
  }
}
