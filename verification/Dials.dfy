/** The legs of a request and the dials made on them (internal/modelproxy/proxy.go, forwardChat). */
module Dials {
  import opened Text
  import opened Breakers
  import opened Router
  import opened Legs
  import opened Upstream

  // ---------- the legs of a request ----------

  /** The legs left so far and the one under way. */
  function AllLegs(left: seq<Leg>, model: string, start: int): seq<Leg> {
    left + [Leg(model, start, start)]
  }

  /** Where a strategy request stands at a moment: its legs are spaced, and every model it has
      left is still quarantined for a cooldown from the moment it was left. */
  ghost predicate OnCourse(cfg: Config, c: Core, left: seq<Leg>, model: string, start: int, begun: int, now: int) {
    && begun <= start <= now
    && Spaced(AllLegs(left, model, start))
    && Within(AllLegs(left, model, start), ModelIds(cfg), begun, now)
    && (forall i :: 0 <= i < |left| ==> left[i].end <= now && Kept(c, left[i].model, left[i].end, now))
    && (cfg.kind.Single? ==> |cfg.models| > 0 && model == cfg.models[0].id && left == [])
  }

  lemma StaysOnCourse(cfg: Config, c: Core, c': Core, left: seq<Leg>, model: string, start: int, begun: int, now: int, now': int)
    requires OnCourse(cfg, c, left, model, start, begun, now) && Keeps(c, c', now, now')
    ensures OnCourse(cfg, c', left, model, start, begun, now')
  {
  }

  lemma SwitchesOnCourse(cfg: Config, c: Core, left: seq<Leg>, model: string, start: int, begun: int,
                         forced: int, now: int, next: string)
    requires OnCourse(cfg, c, left, model, start, begun, now) && start <= forced <= now
    requires next in ModelIds(cfg) && next != model && !cfg.kind.Single?
    requires Kept(c, model, forced, now)
    requires forall i :: 0 <= i < |left| && left[i].model == next ==> now > left[i].end + COOLDOWN
    ensures OnCourse(cfg, c, left + [Leg(model, start, forced)], next, now, begun, now)
  {
    var before := AllLegs(left, model, start);
    var left' := left + [Leg(model, start, forced)];
    var after := AllLegs(left', next, now);
    assert |after| == |left| + 2;
    forall i | 0 <= i < |after|
      ensures after[i].start <= after[i].end && after[i].model in ModelIds(cfg) && begun <= after[i].start && after[i].end <= now
    {
      if i < |left| {
        assert after[i] == before[i];
      } else {
        assert before[|left|] == Leg(model, start, start);
      }
    }
    forall i, j | 0 <= i < j < |after| && after[i].model == after[j].model
      ensures after[j].start > after[i].end + COOLDOWN
    {
      if j == |left| + 1 {
        if i < |left| {
          assert after[i] == left[i];
        }
      } else {
        assert after[i] == before[i];
        assert after[j].start == before[j].start && after[j].model == before[j].model;
      }
    }
  }

  /** A request that moves on closes its leg at a moment from now on. */
  ghost predicate LegClosed(left: seq<Leg>, left': seq<Leg>, model: string, start: int, now: int) {
    && |left'| == |left| + 1 && left'[..|left|] == left
    && left'[|left|].model == model && left'[|left|].start == start && now <= left'[|left|].end
  }

  lemma OnCourseIsBounded(cfg: Config, c: Core, left: seq<Leg>, model: string, start: int, begun: int, now: int, horizon: nat)
    requires OnCourse(cfg, c, left, model, start, begun, now) && now <= begun + horizon
    ensures |left| + 1 <= Budget(|ModelIds(cfg)|, PerModel(horizon))
  {
    LegsFitBudget(AllLegs(left, model, start), ModelIds(cfg), begun, horizon);
  }

  // ---------- the dials of a request ----------

  /** A dial is made on its leg: to its model, after its start, and before its end if it has one
      (the last leg is still under way). */
  ghost predicate OnLeg(d: Dial, legs: seq<Leg>) {
    && d.leg < |legs| && d.model == legs[d.leg].model && legs[d.leg].start <= d.at
    && (d.leg < |legs| - 1 ==> d.at <= legs[d.leg].end)
  }

  /** Of two dials, the earlier is not on a later leg; on one leg they are within the budget of each
      other, and from one dial to the next no leg is left out. */
  ghost predicate InOrder(dials: seq<Dial>, i: int, j: int, budget: nat) {
    0 <= i < j < |dials| ==>
      && dials[i].leg <= dials[j].leg && (dials[i].leg == dials[j].leg ==> j - i < budget)
      && (j == i + 1 ==> dials[j].leg <= dials[i].leg + 1)
  }

  /** The dials are made leg by leg: on the first leg first, on every leg but perhaps the last, and
      on none more than the budget. The first leg is on the model the request was routed to. */
  ghost predicate Follows(dials: seq<Dial>, legs: seq<Leg>, model0: string, budget: nat) {
    && legs != [] && legs[0].model == model0
    && (dials != [] ==> dials[0].leg == 0)
    && (|legs| > 1 ==> dials != [] && dials[|dials| - 1].leg >= |legs| - 2)
    && (forall i {:trigger OnLeg(dials[i], legs)} :: 0 <= i < |dials| ==> OnLeg(dials[i], legs))
    && (forall i, j {:trigger InOrder(dials, i, j, budget)} :: InOrder(dials, i, j, budget))
  }

  /** The dials so far: so many on each leg left, and exactly the last ones on the current leg. */
  ghost predicate Counted(dials: seq<Dial>, left: nat, budget: nat, attempt: nat) {
    && attempt <= |dials| <= Budget(left, budget) + attempt
    && forall i :: 0 <= i < |dials| ==> dials[i].leg <= left && (dials[i].leg == left <==> i >= |dials| - attempt)
  }

  lemma CountedOneMore(dials: seq<Dial>, left: nat, budget: nat, attempt: nat, d: Dial)
    requires Counted(dials, left, budget, attempt) && d.leg == left
    ensures Counted(dials + [d], left, budget, attempt + 1)
  {
  }

  lemma CountedLeg(dials: seq<Dial>, left: nat, budget: nat, attempt: nat)
    requires Counted(dials, left, budget, attempt) && attempt <= budget
    ensures Counted(dials, left + 1, budget, 0)
  {
  }

  lemma FollowsOneMore(dials: seq<Dial>, legs: seq<Leg>, model0: string, budget: nat, attempt: nat, d: Dial)
    requires legs != [] && Follows(dials, legs, model0, budget) && Counted(dials, |legs| - 1, budget, attempt) && attempt < budget
    requires d.leg == |legs| - 1 && OnLeg(d, legs)
    ensures Follows(dials + [d], legs, model0, budget)
  {
    var after := dials + [d];
    forall i, j ensures InOrder(after, i, j, budget) {
      assert InOrder(dials, i, j, budget) && InOrder(dials, i, |dials| - 1, budget);
    }
    forall i | 0 <= i < |after| ensures OnLeg(after[i], legs) {
      if i < |dials| {
        assert OnLeg(dials[i], legs);
      }
    }
  }

  lemma FollowsSwitch(dials: seq<Dial>, left: seq<Leg>, model: string, start: int, model0: string, budget: nat, attempt: nat,
                      left': seq<Leg>, next: string, now: int, now': int)
    requires Follows(dials, AllLegs(left, model, start), model0, budget) && LegClosed(left, left', model, start, now)
    requires Counted(dials, |left|, budget, attempt) && attempt > 0
    requires forall i :: 0 <= i < |dials| ==> dials[i].at <= now
    ensures Follows(dials, AllLegs(left', next, now'), model0, budget)
  {
    var legs, legs' := AllLegs(left, model, start), AllLegs(left', next, now');
    forall i | 0 <= i < |dials| ensures OnLeg(dials[i], legs') {
      assert OnLeg(dials[i], legs);
      if dials[i].leg < |left| {
        assert legs'[dials[i].leg] == left'[..|left|][dials[i].leg] == legs[dials[i].leg];
      } else {
        assert legs[|left|] == Leg(model, start, start) && legs'[|left|] == left'[|left|];
      }
    }
    assert legs'[0].model == legs[0].model by {
      assert |left| > 0 ==> legs'[0] == left'[..|left|][0] == legs[0];
    }
    assert dials[|dials| - 1].leg == |left|;
  }
}
