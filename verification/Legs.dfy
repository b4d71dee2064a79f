/** Counting the legs of a request: the stretches it spends on one model between re-routes. */
module Legs {
  import opened Breakers

  /** A stay on one model: from its first dial to the moment its breaker was forced open. */
  datatype Leg = Leg(model: string, start: int, end: int)

  /** Legs on the same model are a full cooldown apart. */
  ghost predicate Spaced(legs: seq<Leg>) {
    && (forall i :: 0 <= i < |legs| ==> legs[i].start <= legs[i].end)
    && (forall i, j :: 0 <= i < j < |legs| && legs[i].model == legs[j].model ==> legs[j].start > legs[i].end + COOLDOWN)
  }

  ghost predicate Within(legs: seq<Leg>, models: set<string>, lo: int, hi: int) {
    forall i :: 0 <= i < |legs| ==> legs[i].model in models && lo <= legs[i].start && legs[i].end <= hi
  }

  /** The legs on some of the models, in order. */
  function On(legs: seq<Leg>, models: set<string>): seq<Leg>
    decreases |legs|
  {
    if legs == [] then []
    else
      var rest := On(legs[..|legs| - 1], models);
      if legs[|legs| - 1].model in models then rest + [legs[|legs| - 1]] else rest
  }

  /** How many legs one model can get inside a horizon. */
  function PerModel(horizon: nat): nat {
    1 + horizon / (COOLDOWN + 1)
  }

  lemma {:induction false} OnIsPart(legs: seq<Leg>, models: set<string>)
    ensures forall i :: 0 <= i < |On(legs, models)| ==> On(legs, models)[i] in legs && On(legs, models)[i].model in models
    decreases |legs|
  {
    if legs != [] {
      OnIsPart(legs[..|legs| - 1], models);
    }
  }

  lemma {:induction false} OnStaysSpaced(legs: seq<Leg>, models: set<string>)
    requires Spaced(legs)
    ensures Spaced(On(legs, models))
    decreases |legs|
  {
    if legs != [] {
      var n := |legs| - 1;
      var rest := On(legs[..n], models);
      OnStaysSpaced(legs[..n], models);
      OnIsPart(legs[..n], models);
      forall i | 0 <= i < |rest| && rest[i].model == legs[n].model ensures legs[n].start > rest[i].end + COOLDOWN {
        var j :| 0 <= j < n && legs[..n][j] == rest[i];
        assert legs[j] == rest[i];
      }
    }
  }

  lemma {:induction false} OnPartitions(legs: seq<Leg>, a: set<string>, b: set<string>)
    requires a !! b && forall i :: 0 <= i < |legs| ==> legs[i].model in a + b
    ensures |On(legs, a)| + |On(legs, b)| == |legs|
    decreases |legs|
  {
    if legs != [] {
      OnPartitions(legs[..|legs| - 1], a, b);
    }
  }

  /** Part of the legs, within the same bounds. */
  lemma OnStaysWithin(legs: seq<Leg>, all: set<string>, models: set<string>, lo: int, hi: int)
    requires Within(legs, all, lo, hi)
    ensures Within(On(legs, models), models, lo, hi)
  {
    OnIsPart(legs, models);
    var part := On(legs, models);
    forall i | 0 <= i < |part| ensures part[i].model in models && lo <= part[i].start && part[i].end <= hi {
      var j :| 0 <= j < |legs| && legs[j] == part[i];
    }
  }

  /** Spaced legs on one model cannot be many. */
  lemma {:induction false} SpacedOnOne(legs: seq<Leg>, model: string, lo: int, horizon: nat)
    requires Spaced(legs) && Within(legs, {model}, lo, lo + horizon)
    ensures |legs| > 0 ==> (|legs| - 1) * (COOLDOWN + 1) <= legs[|legs| - 1].start - lo
    ensures |legs| <= PerModel(horizon)
    decreases |legs|
  {
    if |legs| > 1 {
      var n := |legs| - 1;
      SpacedOnOne(legs[..n], model, lo, horizon);
      assert legs[n - 1].model == legs[n].model;
    }
    if |legs| > 0 {
      var k := |legs| - 1;
      assert k * (COOLDOWN + 1) <= horizon;
      assert k <= horizon / (COOLDOWN + 1);
    }
  }

  /** n times per, added up. */
  function Budget(n: nat, per: nat): nat {
    if n == 0 then 0 else Budget(n - 1, per) + per
  }

  lemma {:induction false} BudgetIsProduct(n: nat, per: nat)
    ensures Budget(n, per) == n * per
  {
    if n > 0 {
      BudgetIsProduct(n - 1, per);
    }
  }

  lemma {:induction false} LegsFitBudget(legs: seq<Leg>, models: set<string>, lo: int, horizon: nat)
    requires Spaced(legs) && Within(legs, models, lo, lo + horizon)
    ensures |legs| <= Budget(|models|, PerModel(horizon))
    decreases |models|
  {
    if legs != [] {
      var m := legs[0].model;
      OnPartitions(legs, {m}, models - {m});
      OnStaysSpaced(legs, {m});
      OnStaysSpaced(legs, models - {m});
      OnStaysWithin(legs, models, {m}, lo, lo + horizon);
      OnStaysWithin(legs, models, models - {m}, lo, lo + horizon);
      SpacedOnOne(On(legs, {m}), m, lo, horizon);
      LegsFitBudget(On(legs, models - {m}), models - {m}, lo, horizon);
      assert |models - {m}| == |models| - 1;
    }
  }

  /** The bound on re-routes: at most PerModel legs for each of the strategy's models. */
  lemma LegsAreBounded(legs: seq<Leg>, models: set<string>, lo: int, horizon: nat)
    requires Spaced(legs) && Within(legs, models, lo, lo + horizon)
    ensures |legs| <= |models| * PerModel(horizon)
  {
    LegsFitBudget(legs, models, lo, horizon);
    BudgetIsProduct(|models|, PerModel(horizon));
  }
}
