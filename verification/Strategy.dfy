/** The strategy object of the model proxy and the methods that read and change it under its
    lock (internal/modelproxy/proxy.go). Its ghost log lists everything that was ever done to
    it, so that the run theorems of Router speak about real objects. */
module Strategy {
  import opened Text
  import opened Breakers
  import opened Router

  /** The session affinity shared by all strategies of a proxy. */
  class SessionAffinity {
    var mapping: map<string, string>

    constructor ()
      ensures mapping == map[]
    {
      mapping := map[];
    }
  }

  class StrategyState {
    const cfg: Config
    const sessions: SessionAffinity
    var currentIndex: nat
    var stickyModel: string
    var cells: map<string, Cell>

    ghost const origin: Core
    ghost var log: seq<Event>

    /** The abstract state. */
    function View(): Core
      reads this, sessions
    {
      Core(currentIndex, stickyModel, sessions.mapping, cells)
    }

    ghost predicate Valid()
      reads this, sessions
    {
      && View() == Run(cfg, origin, log)
      && cells.Keys == ModelIds(cfg)
    }

    /** initStrategies, for one strategy of the configuration. */
    constructor (cfg: Config, sessions: SessionAffinity, now: int)
      ensures Valid() && this.cfg == cfg && this.sessions == sessions
      ensures log == [] && origin == View() && Initial(cfg, origin, now)
    {
      this.cfg := cfg;
      this.sessions := sessions;
      currentIndex := 0;
      stickyModel := "";
      cells := map[];
      log := [];
      origin := Core(0, "", sessions.mapping, map id | id in ModelIds(cfg) :: NewCell(now));
      new;
      var i := 0;
      while i < |cfg.models|
        invariant 0 <= i <= |cfg.models|
        invariant cells.Keys == set e | e in cfg.models[..i] :: e.id
        invariant forall id :: id in cells ==> cells[id] == NewCell(now)
        invariant currentIndex == 0 && stickyModel == "" && log == [] && this.cfg == cfg && this.sessions == sessions
        invariant sessions.mapping == old(sessions.mapping)
      {
        assert cfg.models[..i + 1] == cfg.models[..i] + [cfg.models[i]];
        cells := cells[cfg.models[i].id := NewCell(now)];
        i := i + 1;
      }
      assert cfg.models[..i] == cfg.models;
    }

    /** GetProviderForModel */
    method GetProviderForModel(modelID: string) returns (r: Option<Provider>)
      ensures r == ProviderFor(cfg.models, cfg.providers, modelID)
    {
      for i := 0 to |cfg.models|
        invariant ProviderFor(cfg.models, cfg.providers, modelID) == ProviderFor(cfg.models[i..], cfg.providers, modelID)
      {
        if cfg.models[i].id == modelID {
          for j := 0 to |cfg.providers|
            invariant ProviderIn(cfg.providers, cfg.models[i].provider) == ProviderIn(cfg.providers[j..], cfg.models[i].provider)
          {
            if cfg.providers[j].id == cfg.models[i].provider {
              return Some(cfg.providers[j]);
            }
          }
        }
      }
      return None;
    }

    /** breakerStateForRoutingLocked */
    method BreakerStateForRouting(modelID: string, now: int) returns (state: BreakerState)
      modifies `cells
      ensures View() == ProbeIds(old(View()), {modelID}, now)
      ensures cells.Keys == old(cells.Keys)
      ensures state.Open? <==> Blocked(old(View()), modelID, now)
    {
      if modelID !in cells {
        return Closed;
      }
      var cell := cells[modelID];
      state := cell.breaker.state;
      if state.Open? && now - cell.breaker.lastChange > COOLDOWN {
        cells := cells[modelID := Cell(Breaker(HalfOpen, now), Metrics(0, 0, 0, 0, 0))];
        state := HalfOpen;
      }
    }

    /** The same look, seen as one more step of a scan that began in state c0. */
    method LookDuringScan(modelID: string, now: int, ghost c0: Core, ghost looked: set<string>) returns (state: BreakerState)
      requires View() == ProbeIds(c0, looked, now)
      modifies `cells
      ensures View() == ProbeIds(c0, looked + {modelID}, now)
      ensures cells.Keys == old(cells.Keys)
      ensures state.Open? <==> Blocked(c0, modelID, now)
    {
      ProbeTwice(c0, looked, modelID, now);
      state := BreakerStateForRouting(modelID, now);
    }

    /** routeStrategyModel; pick stands for the random draw. */
    method RouteStrategyModel(session: string, pick: nat, now: int) returns (r: Option<Choice>)
      requires Valid()
      modifies this, sessions
      ensures Valid() && log == old(log) + [Event(now, Action.Route(session, pick))]
      ensures View() == RouteCore(cfg, old(View()), session, pick, now)
      ensures r == RouteChoice(cfg, old(View()), session, pick, now)
    {
      ghost var c0 := View();
      log := log + [Event(now, Action.Route(session, pick))];
      LogOne(cfg, origin, old(log), Event(now, Action.Route(session, pick)));
      ProbeNone(c0, now);
      if |cfg.models| == 0 {
        return None;
      }
      var chosenModel, chosenProv := "", None;
      if cfg.kind.Weighted? {
        r := RouteWeighted(session, pick, now);
        return;
      }
      match cfg.kind {
        case Single =>
          chosenModel := cfg.models[0].id;
          chosenProv := GetProviderForModel(chosenModel);
        case Fallback =>
          chosenModel, chosenProv := ScanFallback(now);
        case RoundRobin =>
          chosenModel, chosenProv := ScanRoundRobin(now);
        case _ =>
      }
      if chosenModel == "" || chosenProv.None? {
        return None;
      }
      return Some(Choice(chosenModel, chosenProv.value));
    }

    /** The fallback case of routeStrategyModel. */
    method ScanFallback(now: int) returns (chosenModel: string, chosenProv: Option<Provider>)
      requires |cfg.models| > 0
      modifies `cells
      ensures View() == ProbeIds(old(View()), ScannedIds(cfg, 0, ScanCount(cfg, old(View()), 0, now)), now)
      ensures cells.Keys == old(cells.Keys)
      ensures (if chosenModel == "" || chosenProv.None? then None else Some(Choice(chosenModel, chosenProv.value))) ==
              ScanChoice(cfg, old(View()), 0, now)
    {
      ghost var c0 := View();
      chosenModel, chosenProv := "", None;
      ProbeNone(c0, now);
      assert ScannedIds(cfg, 0, 0) == {};
      for i := 0 to |cfg.models|
        invariant chosenProv.None?
        invariant View() == ProbeIds(c0, ScannedIds(cfg, 0, i), now)
        invariant forall j :: 0 <= j < i ==> !Routable(cfg, c0, IdAt(cfg, 0, j), now)
      {
        FromTheTop(cfg, i);
        ScanOneMore(cfg, 0, i);
        var state := LookDuringScan(cfg.models[i].id, now, c0, ScannedIds(cfg, 0, i));
        if state.Open? {
          continue;
        }
        chosenModel := cfg.models[i].id;
        chosenProv := GetProviderForModel(chosenModel);
        if chosenProv.Some? {
          ScanEnds(cfg, c0, 0, i, now);
          break;
        }
      }
      if chosenProv.None? {
        ScanEnds(cfg, c0, 0, |cfg.models|, now);
      }
    }

    /** The round-robin case of routeStrategyModel. */
    method ScanRoundRobin(now: int) returns (chosenModel: string, chosenProv: Option<Provider>)
      requires |cfg.models| > 0 && cfg.kind.RoundRobin?
      modifies `cells, `currentIndex
      ensures View() == ProbeIds(old(View()), ScannedIds(cfg, old(currentIndex), ScanCount(cfg, old(View()), old(currentIndex), now)), now)
                        .(index := RouteIndex(cfg, old(View()), now))
      ensures cells.Keys == old(cells.Keys)
      ensures (if chosenModel == "" || chosenProv.None? then None else Some(Choice(chosenModel, chosenProv.value))) ==
              ScanChoice(cfg, old(View()), old(currentIndex), now)
    {
      ghost var c0 := View();
      chosenModel, chosenProv := "", None;
      ProbeNone(c0, now);
      assert ScannedIds(cfg, c0.index, 0) == {};
      for i := 0 to |cfg.models|
        invariant chosenProv.None? && currentIndex == c0.index
        invariant View() == ProbeIds(c0, ScannedIds(cfg, c0.index, i), now)
        invariant forall j :: 0 <= j < i ==> !Routable(cfg, c0, IdAt(cfg, c0.index, j), now)
      {
        var idx := (currentIndex + i) % |cfg.models|;
        var m := cfg.models[idx];
        ScanOneMore(cfg, c0.index, i);
        var state := LookDuringScan(m.id, now, c0, ScannedIds(cfg, c0.index, i));
        if state.Open? {
          continue;
        }
        chosenModel := m.id;
        chosenProv := GetProviderForModel(chosenModel);
        if chosenProv.Some? {
          ScanEnds(cfg, c0, c0.index, i, now);
          ModShift(c0.index + i, 1, |cfg.models|);
          currentIndex := (idx + 1) % |cfg.models|;
          break;
        }
      }
      if chosenProv.None? {
        ScanEnds(cfg, c0, c0.index, |cfg.models|, now);
      }
    }

    /** The weighted case of routeStrategyModel, with its two looks at the sticky model. */
    method RouteWeighted(session: string, pick: nat, now: int) returns (r: Option<Choice>)
      requires |cfg.models| > 0 && cfg.kind.Weighted?
      modifies `cells, `stickyModel, sessions
      ensures View() == RouteCore(cfg, old(View()), session, pick, now)
      ensures cells.Keys == old(cells.Keys)
      ensures r == RouteChoice(cfg, old(View()), session, pick, now)
    {
      ghost var c0 := View();
      ghost var looked := {};
      ProbeNone(c0, now);
      if stickyModel != "" && session != "" {
        if session in sessions.mapping && sessions.mapping[session] != "" {
          var chosen := sessions.mapping[session];
          looked := {chosen};
          var state := BreakerStateForRouting(chosen, now);
          if !state.Open? {
            var prov := GetProviderForModel(chosen);
            if prov.Some? {
              assert {chosen} + {} == {chosen};
              return Some(Choice(chosen, prov.value));
            }
          }
        }
      }
      var chosenModel, chosenProv := "", None;
      if stickyModel != "" && session != "" {
        if session in sessions.mapping && sessions.mapping[session] != "" {
          var chosen := sessions.mapping[session];
          assert {chosen} + {chosen} == {chosen};
          var state := LookDuringScan(chosen, now, c0, {chosen});
          if !state.Open? {
            chosenModel := chosen;
            chosenProv := GetProviderForModel(chosenModel);
          }
        }
      }
      r := None;
      if chosenModel == "" || chosenProv.None? {
        r := DrawWeighted(session, pick, now, c0, looked);
      } else {
        // the first look would have returned
        assert false;
      }
    }

    /** The models available to a weighted choice, with their total weight. */
    method ListAvailable(now: int, ghost c0: Core, ghost looked: set<string>)
      returns (available: seq<(string, nat)>, totalWeight: nat)
      requires View() == ProbeIds(c0, looked, now)
      modifies `cells
      ensures View() == ProbeIds(c0, looked + ModelIds(cfg), now)
      ensures cells.Keys == old(cells.Keys)
      ensures available == Candidates(cfg, c0, |cfg.models|, now)
      ensures totalWeight == WeightUpTo(cfg, c0, |cfg.models|, now)
    {
      available, totalWeight := [], 0;
      ghost var seen := looked;
      LookedSoFar(cfg, looked, 0);
      for i := 0 to |cfg.models|
        invariant View() == ProbeIds(c0, seen, now) && seen == looked + IdsBefore(cfg, i)
        invariant cells.Keys == old(cells.Keys)
        invariant available == Candidates(cfg, c0, i, now) && totalWeight == WeightUpTo(cfg, c0, i, now)
      {
        var m := cfg.models[i];
        OneMoreEntry(cfg, c0, i, now);
        LookedSoFar(cfg, looked, i);
        var state := LookDuringScan(m.id, now, c0, seen);
        seen := seen + {m.id};
        if state.Open? {
          continue;
        }
        var prov := GetProviderForModel(m.id);
        if prov.Some? {
          var w := WeightOf(m);
          available := available + [(m.id, w)];
          totalWeight := totalWeight + w;
        }
      }
      LookedSoFar(cfg, looked, |cfg.models|);
    }

    /** The weighted random choice among the models available. */
    method DrawWeighted(session: string, pick: nat, now: int, ghost c0: Core, ghost looked: set<string>) returns (r: Option<Choice>)
      requires |cfg.models| > 0 && cfg.kind.Weighted?
      requires View() == ProbeIds(c0, looked, now)
      requires looked == if StickyFor(c0, session).Some? then {StickyFor(c0, session).value} else {}
      requires !StickyHit(cfg, c0, session, now)
      modifies `cells, `stickyModel, sessions
      ensures View() == RouteCore(cfg, c0, session, pick, now)
      ensures cells.Keys == old(cells.Keys)
      ensures r == RouteChoice(cfg, c0, session, pick, now)
    {
      var available, totalWeight := ListAvailable(now, c0, looked);
      WeightsAddUp(cfg, c0, |cfg.models|, now);
      if |available| == 0 {
        WeightedRouteFails(cfg, c0, session, pick, now, looked);
        return None;
      }
      var chosenModel := PickAvailable(available, pick % totalWeight, now, c0);
      var chosenProv := GetProviderForModel(chosenModel);
      WeightedRoute(cfg, c0, session, pick, now, looked, chosenModel);
      stickyModel := chosenModel;
      if session != "" {
        sessions.mapping := sessions.mapping[session := chosenModel];
      }
      if chosenModel == "" || chosenProv.None? {
        return None;
      }
      return Some(Choice(chosenModel, chosenProv.value));
    }

    /** The loop that adds up weights until they exceed the draw. */
    method PickAvailable(available: seq<(string, nat)>, draw: nat, now: int, ghost c0: Core) returns (chosenModel: string)
      requires available == Candidates(cfg, c0, |cfg.models|, now) && draw < WeightUpTo(cfg, c0, |cfg.models|, now)
      ensures chosenModel == cfg.models[PickEntry(cfg, c0, draw, 0, now)].id
    {
      var accum: nat := 0;
      WeightsAddUp(cfg, c0, |cfg.models|, now);
      for k := 0 to |available|
        invariant accum == SumOf(available, k) <= draw
      {
        accum := accum + available[k].1;
        if draw < accum {
          ghost var p := CandidateAt(cfg, c0, |cfg.models|, now, k);
          WeightedShare(cfg, c0, p, draw, now);
          return available[k].0;
        }
      }
      assert false;
    }

    /** recordStrategyMetrics */
    method RecordStrategyMetrics(modelID: string, o: Outcome, now: int)
      requires Valid()
      modifies `cells, `log
      ensures Valid() && log == old(log) + [Event(now, Action.Record(modelID, o))]
      ensures View() == Step(cfg, old(View()), Event(now, Action.Record(modelID, o)))
    {
      log := log + [Event(now, Action.Record(modelID, o))];
      LogOne(cfg, origin, old(log), Event(now, Action.Record(modelID, o)));
      if modelID !in cells {
        return;
      }
      var m := cells[modelID].metrics;
      m := m.(requests := m.requests + 1, latency := m.latency + o.latency, tokens := m.tokens + o.tokens);
      if o.failed {
        m := m.(errors := m.errors + 1, consecutive := m.consecutive + 1);
      } else {
        m := m.(consecutive := 0);
      }
      cells := cells[modelID := cells[modelID].(metrics := m)];
    }

    /** checkCircuitBreaker */
    method CheckCircuitBreaker(modelID: string, now: int)
      requires Valid()
      modifies `cells, `log
      ensures Valid() && log == old(log) + [Event(now, Action.Check(modelID))]
      ensures View() == Step(cfg, old(View()), Event(now, Action.Check(modelID)))
    {
      log := log + [Event(now, Action.Check(modelID))];
      LogOne(cfg, origin, old(log), Event(now, Action.Check(modelID)));
      if modelID !in cells {
        return;
      }
      var cb, m := cells[modelID].breaker, cells[modelID].metrics;
      if cb.state.HalfOpen? {
        if m.consecutive == 0 && m.requests > 0 {
          cb := Breaker(Closed, now);
        } else if m.consecutive >= 3 {
          cb := Breaker(Open, now);
        }
      } else if m.consecutive >= 3 {
        cb := TripBreaker(cb, now);
      } else if HighErrorRate(m) {
        cb := TripBreaker(cb, now);
      } else if Slow(m) {
        cb := TripBreaker(cb, now);
      } else if LowThroughput(m) {
        cb := TripBreaker(cb, now);
      } else if cb.state.Open? && now - cb.lastChange > COOLDOWN {
        cb := Breaker(HalfOpen, now);
        m := Metrics(0, 0, 0, 0, 0);
      }
      cells := cells[modelID := Cell(cb, m)];
    }

    method TripBreaker(cb: Breaker, now: int) returns (r: Breaker)
      ensures r == Trip(cb, now)
    {
      r := cb;
      if cb.state.Closed? {
        r := Breaker(Open, now);
      }
    }

    /** The forced opening in forwardChat. */
    method ForceOpen(modelID: string, now: int)
      requires Valid()
      modifies `cells, `log
      ensures Valid() && log == old(log) + [Event(now, Action.Force(modelID))]
      ensures View() == Step(cfg, old(View()), Event(now, Action.Force(modelID)))
    {
      log := log + [Event(now, Action.Force(modelID))];
      LogOne(cfg, origin, old(log), Event(now, Action.Force(modelID)));
      if modelID in cells {
        cells := cells[modelID := cells[modelID].(breaker := Breaker(Open, now))];
      }
    }

    /** The admin endpoints switch and force, after their argument checks. */
    method SwitchModel(session: Option<string>, modelID: string, now: int) returns (accepted: bool)
      requires Valid()
      modifies `stickyModel, `log, sessions
      ensures Valid()
      ensures log == old(log) + [Event(now, if session.Some? then Switch(session.value, modelID) else ForceAll(modelID))]
      ensures View() == Step(cfg, old(View()), log[|log| - 1])
      ensures accepted <==> (session.Some? ==> session.value != "") && Accepted(cfg, old(View()), modelID)
    {
      ghost var e := Event(now, if session.Some? then Switch(session.value, modelID) else ForceAll(modelID));
      log := log + [e];
      LogOne(cfg, origin, old(log), e);
      if modelID == "" || session == Some("") {
        return false;
      }
      var found := false;
      for i := 0 to |cfg.models|
        invariant !found && forall j :: 0 <= j < i ==> cfg.models[j].id != modelID
      {
        if cfg.models[i].id == modelID {
          found := true;
          assert cfg.models[i] in cfg.models;
          break;
        }
      }
      if !found {
        return false;
      }
      if modelID in cells && cells[modelID].breaker.state.Open? {
        return false;
      }
      if session.Some? {
        sessions.mapping := sessions.mapping[session.value := modelID];
      } else {
        sessions.mapping := map s | s in sessions.mapping :: modelID;
      }
      stickyModel := modelID;
      return true;
    }

    /** Another strategy's routing writes the affinity they share. */
    method RememberElsewhere(session: string, modelID: string, now: int)
      requires Valid()
      modifies `log, sessions
      ensures Valid() && log == old(log) + [Event(now, Action.Remember(session, modelID))]
      ensures View() == Step(cfg, old(View()), Event(now, Action.Remember(session, modelID)))
    {
      log := log + [Event(now, Action.Remember(session, modelID))];
      LogOne(cfg, origin, old(log), Event(now, Action.Remember(session, modelID)));
      sessions.mapping := sessions.mapping[session := modelID];
    }

    /** Whatever other requests do, in some order. */
    method Others(evs: seq<Event>)
      requires Valid()
      modifies this, sessions
      ensures Valid() && log == old(log) + evs
      ensures View() == Run(cfg, old(View()), evs)
    {
      for i := 0 to |evs|
        invariant Valid() && log == old(log) + evs[..i]
      {
        var e := evs[i];
        assert evs[..i + 1] == evs[..i] + [e];
        match e.action
        case Route(session, pick) => var _ := RouteStrategyModel(session, pick, e.now);
        case Record(id, o) => RecordStrategyMetrics(id, o, e.now);
        case Check(id) => CheckCircuitBreaker(id, e.now);
        case Force(id) => ForceOpen(id, e.now);
        case Switch(session, id) => var _ := SwitchModel(Some(session), id, e.now);
        case ForceAll(id) => var _ := SwitchModel(None, id, e.now);
        case Remember(session, id) => RememberElsewhere(session, id, e.now);
      }
      assert evs[..|evs|] == evs;
      RunAppend(cfg, origin, old(log), evs);
    }
  }

  // ---------- steps of the methods ----------

  lemma LogOne(cfg: Config, c: Core, log: seq<Event>, e: Event)
    ensures Run(cfg, c, log + [e]) == Step(cfg, Run(cfg, c, log), e)
  {
    assert (log + [e])[..|log|] == log;
  }

  /** Looking again, or at one more model, at the same moment. */
  lemma ProbeTwice(c: Core, ids: set<string>, id: string, now: int)
    ensures ProbeIds(ProbeIds(c, ids, now), {id}, now) == ProbeIds(c, ids + {id}, now)
    ensures Blocked(ProbeIds(c, ids, now), id, now) <==> Blocked(c, id, now)
  {
  }

  /** Where a scan that found nothing before position i ends. */
  lemma ScanEnds(cfg: Config, c: Core, start: nat, i: nat, now: int)
    requires |cfg.models| > 0 && i <= |cfg.models|
    requires forall j :: 0 <= j < i ==> !Routable(cfg, c, IdAt(cfg, start, j), now)
    requires i < |cfg.models| ==> Routable(cfg, c, IdAt(cfg, start, i), now)
    ensures FirstRoutable(cfg, c, start, 0, now) == if i < |cfg.models| then Some(i) else None
    ensures ScanCount(cfg, c, start, now) == if i < |cfg.models| then i + 1 else |cfg.models|
  {
  }

  lemma ScanOneMore(cfg: Config, start: nat, i: nat)
    requires i < |cfg.models|
    ensures ScannedIds(cfg, start, i + 1) == ScannedIds(cfg, start, i) + {IdAt(cfg, start, i)}
  {
  }

  ghost function IdsBefore(cfg: Config, n: nat): set<string>
    requires n <= |cfg.models|
  {
    set e | e in cfg.models[..n] :: e.id
  }

  lemma IdsUpTo(cfg: Config, n: nat)
    requires n <= |cfg.models|
    ensures n < |cfg.models| ==> IdsBefore(cfg, n + 1) == IdsBefore(cfg, n) + {cfg.models[n].id}
    ensures n == |cfg.models| ==> IdsBefore(cfg, n) == ModelIds(cfg)
    ensures IdsBefore(cfg, 0) == {}
  {
    if n < |cfg.models| {
      assert cfg.models[..n + 1] == cfg.models[..n] + [cfg.models[n]];
    } else {
      assert cfg.models[..n] == cfg.models;
    }
  }

  lemma LookedSoFar(cfg: Config, looked: set<string>, i: nat)
    requires i <= |cfg.models|
    ensures i == 0 ==> looked + IdsBefore(cfg, i) == looked
    ensures i < |cfg.models| ==> looked + IdsBefore(cfg, i + 1) == looked + IdsBefore(cfg, i) + {cfg.models[i].id}
    ensures i == |cfg.models| ==> looked + IdsBefore(cfg, i) == looked + ModelIds(cfg)
  {
    IdsUpTo(cfg, i);
  }

  lemma WeightedRouteFails(cfg: Config, c: Core, session: string, pick: nat, now: int, looked: set<string>)
    requires |cfg.models| > 0 && cfg.kind.Weighted? && !StickyHit(cfg, c, session, now)
    requires looked == if StickyFor(c, session).Some? then {StickyFor(c, session).value} else {}
    requires WeightUpTo(cfg, c, |cfg.models|, now) == 0
    ensures RouteCore(cfg, c, session, pick, now) == ProbeIds(c, looked + ModelIds(cfg), now)
    ensures RouteChoice(cfg, c, session, pick, now).None?
  {
  }

  lemma WeightedRoute(cfg: Config, c: Core, session: string, pick: nat, now: int, looked: set<string>, id: string)
    requires |cfg.models| > 0 && cfg.kind.Weighted? && !StickyHit(cfg, c, session, now)
    requires looked == if StickyFor(c, session).Some? then {StickyFor(c, session).value} else {}
    requires WeightUpTo(cfg, c, |cfg.models|, now) > 0
    requires id == cfg.models[PickEntry(cfg, c, pick % WeightUpTo(cfg, c, |cfg.models|, now), 0, now)].id
    ensures RouteCore(cfg, c, session, pick, now) ==
              ProbeIds(c, looked + ModelIds(cfg), now).(sticky := id, affinity := if session != "" then c.affinity[session := id] else c.affinity)
    ensures RouteChoice(cfg, c, session, pick, now) == Finish(id, ProviderFor(cfg.models, cfg.providers, id))
  {
  }

  /** The routable ones among the first n entries, with their weights. */
  function Candidates(cfg: Config, c: Core, n: nat, now: int): seq<(string, nat)>
    requires n <= |cfg.models|
  {
    if n == 0 then []
    else
      var e := cfg.models[n - 1];
      Candidates(cfg, c, n - 1, now) + if Routable(cfg, c, e.id, now) then [(e.id, WeightOf(e))] else []
  }

  lemma OneMoreEntry(cfg: Config, c: Core, i: nat, now: int)
    requires i < |cfg.models|
    ensures var e := cfg.models[i];
            if !Blocked(c, e.id, now) && ProviderFor(cfg.models, cfg.providers, e.id).Some? then
              && Candidates(cfg, c, i + 1, now) == Candidates(cfg, c, i, now) + [(e.id, WeightOf(e))]
              && WeightUpTo(cfg, c, i + 1, now) == WeightUpTo(cfg, c, i, now) + WeightOf(e)
            else
              && Candidates(cfg, c, i + 1, now) == Candidates(cfg, c, i, now)
              && WeightUpTo(cfg, c, i + 1, now) == WeightUpTo(cfg, c, i, now)
  {
  }

  function SumOf(available: seq<(string, nat)>, k: nat): nat
    requires k <= |available|
  {
    if k == 0 then 0 else SumOf(available, k - 1) + available[k - 1].1
  }

  lemma {:induction false} SumOfPrefix(a: seq<(string, nat)>, b: seq<(string, nat)>, k: nat)
    requires k <= |a|
    ensures SumOf(a + b, k) == SumOf(a, k)
  {
    if k > 0 {
      SumOfPrefix(a, b, k - 1);
    }
  }

  /** The weights of the candidates add up to the total weight. */
  lemma {:induction false} WeightsAddUp(cfg: Config, c: Core, n: nat, now: int)
    requires n <= |cfg.models|
    ensures var l := Candidates(cfg, c, n, now); SumOf(l, |l|) == WeightUpTo(cfg, c, n, now)
    ensures Candidates(cfg, c, n, now) == [] <==> WeightUpTo(cfg, c, n, now) == 0
  {
    if n > 0 {
      var before := Candidates(cfg, c, n - 1, now);
      WeightsAddUp(cfg, c, n - 1, now);
      SumOfPrefix(before, Candidates(cfg, c, n, now)[|before|..], |before|);
      assert Candidates(cfg, c, n, now) == before + Candidates(cfg, c, n, now)[|before|..];
    }
  }

  /** The entry behind the k-th candidate: the weights before it are those of the entries before. */
  lemma {:induction false} CandidateAt(cfg: Config, c: Core, n: nat, now: int, k: nat) returns (p: nat)
    requires n <= |cfg.models| && k < |Candidates(cfg, c, n, now)|
    ensures p < n && Routable(cfg, c, cfg.models[p].id, now)
    ensures Candidates(cfg, c, n, now)[k] == (cfg.models[p].id, WeightOf(cfg.models[p]))
    ensures SumOf(Candidates(cfg, c, n, now), k) == WeightUpTo(cfg, c, p, now)
  {
    var l, before := Candidates(cfg, c, n, now), Candidates(cfg, c, n - 1, now);
    var more := l[|before|..];
    assert l == before + more;
    SumOfPrefix(before, more, if k < |before| then k else |before|);
    if k < |before| {
      p := CandidateAt(cfg, c, n - 1, now, k);
    } else {
      p := n - 1;
      WeightsAddUp(cfg, c, n - 1, now);
    }
  }
}
