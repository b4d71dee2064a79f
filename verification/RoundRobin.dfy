/** Fairness of the round-robin strategy (internal/modelproxy/proxy.go:417-431). */
module RoundRobin {
  import opened Text
  import opened Breakers
  import opened Router

  /** The position a round-robin decision selects, if any. */
  function Selected(cfg: Config, c: Core, now: int): Option<nat> {
    if |cfg.models| == 0 then None
    else match FirstRoutable(cfg, c, c.index, 0, now)
      case None => None
      case Some(o) => Some(PosAt(cfg, c.index, o))
  }

  /** The positions a selection can reach. */
  function Available(cfg: Config, c: Core, now: int): set<nat> {
    set i: nat | 0 <= i < |cfg.models| && Routable(cfg, c, cfg.models[i].id, now)
  }

  datatype Request = Request(session: string, now: int)

  /** The positions that consecutive decisions select. */
  function Turns(cfg: Config, c: Core, requests: seq<Request>): seq<nat>
    decreases |requests|
  {
    if requests == [] then []
    else
      var c' := RouteCore(cfg, c, requests[0].session, 0, requests[0].now);
      (match Selected(cfg, c, requests[0].now) case None => [] case Some(p) => [p]) + Turns(cfg, c', requests[1..])
  }

  /** At each of these requests the same positions are available. */
  ghost predicate Steady(cfg: Config, c: Core, requests: seq<Request>, available: set<nat>)
    decreases |requests|
  {
    requests != [] ==>
      && Available(cfg, c, requests[0].now) == available
      && Steady(cfg, RouteCore(cfg, c, requests[0].session, 0, requests[0].now), requests[1..], available)
  }

  /** The cyclic distance from a to b going forward. */
  function Distance(n: nat, a: nat, b: nat): (d: nat)
    requires a < n && b < n
    ensures d < n
  {
    if a <= b then b - a else b + n - a
  }

  /** Routing itself changes nobody's routability: requests at one moment are always steady. */
  lemma {:induction false} SameMomentIsSteady(cfg: Config, c: Core, requests: seq<Request>, now: int)
    requires cfg.kind.RoundRobin?
    requires forall i :: 0 <= i < |requests| ==> requests[i].now == now
    ensures Steady(cfg, c, requests, Available(cfg, c, now))
    decreases |requests|
  {
    if requests != [] {
      var c' := RouteCore(cfg, c, requests[0].session, 0, now);
      assert forall id :: Blocked(c', id, now) <==> Blocked(c, id, now);
      assert Available(cfg, c', now) == Available(cfg, c, now);
      SameMomentIsSteady(cfg, c', requests[1..], now);
    }
  }

  /** A selection is the available position nearest after the cursor, and the cursor moves
      just past it. */
  lemma SelectedIsNearest(cfg: Config, c: Core, now: int)
    requires cfg.kind.RoundRobin? && c.index < |cfg.models|
    requires Available(cfg, c, now) != {}
    ensures Selected(cfg, c, now).Some?
    ensures var p := Selected(cfg, c, now).value;
            && p in Available(cfg, c, now)
            && (forall q :: q in Available(cfg, c, now) ==> Distance(|cfg.models|, c.index, p) <= Distance(|cfg.models|, c.index, q))
            && RouteIndex(cfg, c, now) == (if p + 1 == |cfg.models| then 0 else p + 1)
  {
    var n := |cfg.models|;
    var q0 :| q0 in Available(cfg, c, now);
    AtDistance(cfg, c, q0, now);
    var o := FirstRoutable(cfg, c, c.index, 0, now).value;
    var p := if c.index + o < n then c.index + o else c.index + o - n;
    ModSmall(c.index, o, p, n);
    assert Distance(n, c.index, p) == o;
    forall q | q in Available(cfg, c, now) ensures o <= Distance(n, c.index, q) {
      AtDistance(cfg, c, q, now);
    }
    ModSmall(c.index, o + 1, if p + 1 == n then 0 else p + 1, n);
  }

  /** The scan from the cursor meets an available position at its distance. */
  lemma AtDistance(cfg: Config, c: Core, q: nat, now: int)
    requires c.index < |cfg.models| && q in Available(cfg, c, now)
    ensures Routable(cfg, c, IdAt(cfg, c.index, Distance(|cfg.models|, c.index, q)), now)
  {
    ModSmall(c.index, Distance(|cfg.models|, c.index, q), q, |cfg.models|);
  }

  /** What remains of a round that began at start: the available positions not nearer to
      start than the cursor, until nothing remains. */
  ghost predicate Remaining(n: nat, start: nat, cursor: nat, available: set<nat>, left: set<nat>)
    requires start < n && cursor < n && forall q :: q in available ==> q < n
  {
    && left <= available
    && (forall q :: q in available ==> (q in left <==> left != {} && Distance(n, start, q) >= Distance(n, start, cursor)))
  }

  /** Selecting the nearest position removes exactly it from what remains. */
  lemma SelectionAdvances(n: nat, start: nat, cursor: nat, available: set<nat>, left: set<nat>, p: nat)
    requires start < n && cursor < n && forall q :: q in available ==> q < n
    requires Remaining(n, start, cursor, available, left) && left != {}
    requires p in available
    requires forall q :: q in available ==> Distance(n, cursor, p) <= Distance(n, cursor, q)
    ensures p in left
    ensures Remaining(n, start, if p + 1 == n then 0 else p + 1, available, left - {p})
  {
    var next := if p + 1 == n then 0 else p + 1;
    var q0 :| q0 in left;
    NearestStaysAhead(n, start, cursor, p, q0);
    var left' := left - {p};
    if left' != {} {
      var q1 :| q1 in left';
      NearestStaysAhead(n, start, cursor, p, q1);
      assert Distance(n, start, next) == Distance(n, start, p) + 1;
      forall q | q in available ensures q in left' <==> Distance(n, start, q) >= Distance(n, start, next) {
        if q in left {
          NearestStaysAhead(n, start, cursor, p, q);
        }
      }
    }
  }

  /** The nearest position after the cursor lies ahead of it, seen from start, if any does. */
  lemma NearestStaysAhead(n: nat, start: nat, cursor: nat, p: nat, q: nat)
    requires start < n && cursor < n && p < n && q < n
    requires Distance(n, start, q) >= Distance(n, start, cursor)
    requires Distance(n, cursor, p) <= Distance(n, cursor, q)
    ensures Distance(n, start, cursor) <= Distance(n, start, p) <= Distance(n, start, q)
  {
  }

  lemma {:induction false} TurnsVisitWhatRemains(cfg: Config, c: Core, start: nat, available: set<nat>, left: set<nat>,
                                                 requests: seq<Request>)
    requires cfg.kind.RoundRobin? && c.index < |cfg.models| && start < |cfg.models|
    requires forall q :: q in available ==> q < |cfg.models|
    requires Steady(cfg, c, requests, available)
    requires Remaining(|cfg.models|, start, c.index, available, left)
    requires |requests| == |left|
    ensures var t := Turns(cfg, c, requests);
            && |t| == |requests|
            && (forall i, j :: 0 <= i < j < |t| ==> t[i] != t[j])
            && (forall p :: p in t <==> p in left)
    decreases |requests|
  {
    if requests == [] {
      assert left == {};
    } else {
      var now := requests[0].now;
      var q0 :| q0 in left;
      SelectedIsNearest(cfg, c, now);
      var p := Selected(cfg, c, now).value;
      var c' := RouteCore(cfg, c, requests[0].session, 0, now);
      SelectionAdvances(|cfg.models|, start, c.index, available, left, p);
      TurnsVisitWhatRemains(cfg, c', start, available, left - {p}, requests[1..]);
      assert Turns(cfg, c, requests) == [p] + Turns(cfg, c', requests[1..]);
      TurnAdded(p, Turns(cfg, c', requests[1..]), left);
    }
  }

  lemma TurnAdded(p: nat, rest: seq<nat>, left: set<nat>)
    requires p in left && (forall i, j :: 0 <= i < j < |rest| ==> rest[i] != rest[j])
    requires forall q :: q in rest <==> q in left - {p}
    ensures var t := [p] + rest;
            && (forall i, j :: 0 <= i < j < |t| ==> t[i] != t[j])
            && (forall q :: q in t <==> q in left)
  {
    var t := [p] + rest;
    assert forall i :: 0 < i < |t| ==> t[i] == rest[i - 1] && t[i] in rest;
  }

  /** While the same k positions stay available, k consecutive selections visit every one of
      them exactly once, from any cursor. */
  lemma RoundRobinIsFair(cfg: Config, c: Core, requests: seq<Request>, available: set<nat>)
    requires cfg.kind.RoundRobin? && c.index < |cfg.models|
    requires Steady(cfg, c, requests, available) && |requests| == |available|
    ensures var t := Turns(cfg, c, requests);
            && |t| == |requests|
            && (forall i, j :: 0 <= i < j < |t| ==> t[i] != t[j])
            && (forall p :: p in t <==> p in available)
  {
    if requests == [] {
      assert available == {};
    }
    TurnsVisitWhatRemains(cfg, c, c.index, available, available, requests);
  }

  /** In particular any k requests at one moment, with k positions available then. */
  lemma FairAtOneMoment(cfg: Config, c: Core, requests: seq<Request>, now: int)
    requires cfg.kind.RoundRobin? && c.index < |cfg.models|
    requires |requests| == |Available(cfg, c, now)| && forall i :: 0 <= i < |requests| ==> requests[i].now == now
    ensures var t := Turns(cfg, c, requests);
            && |t| == |requests|
            && (forall i, j :: 0 <= i < j < |t| ==> t[i] != t[j])
            && (forall p :: p in t <==> p in Available(cfg, c, now))
  {
    SameMomentIsSteady(cfg, c, requests, now);
    RoundRobinIsFair(cfg, c, requests, Available(cfg, c, now));
  }
}
