/** Sessions and the models they are stuck to (internal/modelproxy/proxy.go, the weighted strategy of
    routeStrategyModel and the endpoints that switch a session). */
module Sessions {
  import opened Text
  import opened Breakers
  import opened Router

  /** May this event change the model a session is remembered to use? A routing decision of its own, a
      switch of it or a forced model that is accepted, and a decision of another strategy. */
  ghost predicate Resets(cfg: Config, c: Core, e: Event, session: string) {
    match e.action
    case Route(s, _) => s == session
    case Switch(s, id) => s == session && MayBeNamed(cfg, c, id)
    case ForceAll(id) => MayBeNamed(cfg, c, id)
    case Remember(s, _) => s == session
    case _ => false
  }

  /** The endpoints take a model of the strategy whose breaker is not Open. */
  ghost predicate MayBeNamed(cfg: Config, c: Core, id: string) {
    && id != "" && (exists e :: e in cfg.models && e.id == id)
    && !(id in c.cells && c.cells[id].breaker.state == Open)
  }

  ghost predicate StuckTo(c: Core, session: string, id: string) {
    c.sticky != "" && session in c.affinity && c.affinity[session] == id
  }

  lemma StepStaysStuck(cfg: Config, c: Core, e: Event, session: string, id: string)
    requires "" !in ModelIds(cfg) && StuckTo(c, session, id) && !Resets(cfg, c, e, session)
    ensures StuckTo(Step(cfg, c, e), session, id)
  {
    match e.action
    case Route(s, pick) => DrawnIsNamed(cfg, c, s, pick, e.now);
    case _ =>
  }

  lemma DrawnIsNamed(cfg: Config, c: Core, session: string, pick: nat, now: int)
    requires "" !in ModelIds(cfg)
    ensures NewSticky(cfg, c, session, pick, now).Some? ==> NewSticky(cfg, c, session, pick, now).value != ""
  {
    if NewSticky(cfg, c, session, pick, now).Some? {
      var p := PickEntry(cfg, c, pick % WeightUpTo(cfg, c, |cfg.models|, now), 0, now);
      assert cfg.models[p] in cfg.models;
    }
  }

  lemma {:induction false} RunStaysStuck(cfg: Config, c: Core, evs: seq<Event>, session: string, id: string)
    requires "" !in ModelIds(cfg) && StuckTo(c, session, id)
    requires forall i :: 0 <= i < |evs| ==> !Resets(cfg, Run(cfg, c, evs[..i]), evs[i], session)
    ensures StuckTo(Run(cfg, c, evs), session, id)
    decreases |evs|
  {
    if evs != [] {
      var n := |evs| - 1;
      forall i | 0 <= i < n ensures !Resets(cfg, Run(cfg, c, evs[..n][..i]), evs[..n][i], session) {
        assert evs[..n][..i] == evs[..i];
      }
      RunStaysStuck(cfg, c, evs[..n], session, id);
      StepStaysStuck(cfg, Run(cfg, c, evs[..n]), evs[n], session, id);
    }
  }

  /** A decision for a session that is stuck to a routable model is that model. */
  lemma StuckIsChosen(cfg: Config, c: Core, session: string, id: string, pick: nat, now: int)
    requires cfg.kind.Weighted? && session != "" && id != "" && |cfg.models| > 0
    requires StuckTo(c, session, id) && Routable(cfg, c, id, now)
    ensures RouteChoice(cfg, c, session, pick, now) == Some(Choice(id, ProviderFor(cfg.models, cfg.providers, id).value))
  {
  }

  /** After a weighted decision the session is stuck to what was chosen. */
  lemma ChosenIsStuck(cfg: Config, c: Core, session: string, pick: nat, now: int)
    requires cfg.kind.Weighted? && session != "" && "" !in ModelIds(cfg) && RouteChoice(cfg, c, session, pick, now).Some?
    ensures StuckTo(RouteCore(cfg, c, session, pick, now), session, RouteChoice(cfg, c, session, pick, now).value.model)
  {
    DrawnIsNamed(cfg, c, session, pick, now);
  }

  /** A session keeps its model: after a weighted decision for it, and after anything that does not reset
      it, the next decision is the same model with the same provider whenever that model is routable,
      whatever other sessions have drawn meanwhile. */
  lemma SessionKeepsItsModel(cfg: Config, c: Core, session: string, pick: nat, now: int, evs: seq<Event>, pick': nat, now': int)
    requires cfg.kind.Weighted? && session != "" && "" !in ModelIds(cfg) && RouteChoice(cfg, c, session, pick, now).Some?
    requires var c1 := Step(cfg, c, Event(now, Action.Route(session, pick)));
             forall i :: 0 <= i < |evs| ==> !Resets(cfg, Run(cfg, c1, evs[..i]), evs[i], session)
    ensures var ch, c2 := RouteChoice(cfg, c, session, pick, now), Run(cfg, Step(cfg, c, Event(now, Action.Route(session, pick))), evs);
            Routable(cfg, c2, ch.value.model, now') ==> RouteChoice(cfg, c2, session, pick', now') == ch
  {
    var ch := RouteChoice(cfg, c, session, pick, now).value;
    var c1 := Step(cfg, c, Event(now, Action.Route(session, pick)));
    RouteSelectsRoutable(cfg, c, session, pick, now);
    ChosenIsStuck(cfg, c, session, pick, now);
    RunStaysStuck(cfg, c1, evs, session, ch.model);
    if Routable(cfg, Run(cfg, c1, evs), ch.model, now') {
      StuckIsChosen(cfg, Run(cfg, c1, evs), session, ch.model, pick', now');
    }
  }

  /** A switch of the session, or a model forced on all sessions that are remembered. */
  ghost predicate Names(c: Core, e: Event, session: string, id: string) {
    match e.action
    case Switch(s, i) => s == session && i == id
    case ForceAll(i) => i == id && session in c.affinity
    case _ => false
  }

  /** And a model named for it is the one it gets from then on; one that may not be named changes
      nothing at all. */
  lemma NamedModelIsKept(cfg: Config, c: Core, e: Event, session: string, id: string, evs: seq<Event>, pick: nat, now: int)
    requires cfg.kind.Weighted? && session != "" && "" !in ModelIds(cfg) && Names(c, e, session, id)
    requires forall i :: 0 <= i < |evs| ==> !Resets(cfg, Run(cfg, Step(cfg, c, e), evs[..i]), evs[i], session)
    ensures !MayBeNamed(cfg, c, id) ==> Step(cfg, c, e) == c
    ensures var c2 := Run(cfg, Step(cfg, c, e), evs);
            MayBeNamed(cfg, c, id) && Routable(cfg, c2, id, now) ==>
              RouteChoice(cfg, c2, session, pick, now) == Some(Choice(id, ProviderFor(cfg.models, cfg.providers, id).value))
  {
    if MayBeNamed(cfg, c, id) {
      assert StuckTo(Step(cfg, c, e), session, id);
      RunStaysStuck(cfg, Step(cfg, c, e), evs, session, id);
      if Routable(cfg, Run(cfg, Step(cfg, c, e), evs), id, now) {
        StuckIsChosen(cfg, Run(cfg, Step(cfg, c, e), evs), session, id, pick, now);
      }
    }
  }

  /** The two endpoints take exactly these models, for every configuration: a switch only for a session
      with a name, a forced model for exactly the sessions that are remembered; what they refuse changes
      nothing. */
  lemma EndpointsTake(cfg: Config, c: Core, session: string, id: string, now: int)
    ensures Step(cfg, c, Event(now, Action.Switch(session, id))) ==
              if session != "" && MayBeNamed(cfg, c, id) then c.(sticky := id, affinity := c.affinity[session := id]) else c
    ensures var c' := Step(cfg, c, Event(now, Action.ForceAll(id)));
            && c' == c.(sticky := c'.sticky, affinity := c'.affinity)
            && c'.affinity.Keys == c.affinity.Keys
            && c'.sticky == (if MayBeNamed(cfg, c, id) then id else c.sticky)
            && forall s :: s in c.affinity ==> c'.affinity[s] == if MayBeNamed(cfg, c, id) then id else c.affinity[s]
  {
  }

  // ---------- drawing ----------

  /** Is the session stuck to a model that may be used now? */
  ghost predicate Settled(cfg: Config, c: Core, session: string, now: int) {
    && c.sticky != "" && session != "" && session in c.affinity
    && c.affinity[session] != "" && Routable(cfg, c, c.affinity[session], now)
  }

  /** Otherwise a new model is drawn: of all the draws below the total, each routable entry gets as many
      in a row as its weight says, one if that is not positive, and the others none; and the session and
      the strategy are stuck to it from then on. */
  lemma DrawIsByWeight(cfg: Config, c: Core, session: string, pick: nat, now: int, p: nat)
    requires cfg.kind.Weighted? && !Settled(cfg, c, session, now) && "" !in ModelIds(cfg)
    requires p < |cfg.models| && WeightUpTo(cfg, c, p, now) <= pick < WeightUpTo(cfg, c, p + 1, now)
    ensures WeightUpTo(cfg, c, p + 1, now) - WeightUpTo(cfg, c, p, now) ==
              if Routable(cfg, c, cfg.models[p].id, now) then (if cfg.models[p].weight > 0 then cfg.models[p].weight else 1) else 0
    ensures pick < WeightUpTo(cfg, c, |cfg.models|, now)
    ensures var ch, c1 := RouteChoice(cfg, c, session, pick, now), Step(cfg, c, Event(now, Action.Route(session, pick)));
            && ch.Some? && ch.value.model == cfg.models[p].id
            && c1.sticky == cfg.models[p].id
            && c1.affinity == if session == "" then c.affinity else c.affinity[session := cfg.models[p].id]
  {
    var n := |cfg.models|;
    WeightMonotone(cfg, c, p + 1, n, now);
    SmallMod(pick, WeightUpTo(cfg, c, n, now));
    WeightedShare(cfg, c, p, pick, now);
    assert cfg.models[p] in cfg.models;
  }

  lemma SmallMod(a: nat, b: nat)
    requires a < b
    ensures a % b == a
  {
  }
}
