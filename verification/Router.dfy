/** The strategy router: which model a request is sent to, given the breakers
    (internal/modelproxy/proxy.go, routeStrategyModel and its helpers). */
module Router {
  import opened Text
  import opened Breakers

  datatype Kind = Single | Fallback | RoundRobin | Weighted | Unknown

  datatype Entry = Entry(id: string, provider: string, weight: int)

  datatype Provider = Provider(id: string, maxRetries: int, holdTimeout: int)

  /** What stays fixed after initStrategies. */
  datatype Config = Config(kind: Kind, models: seq<Entry>, providers: seq<Provider>)

  /** What requests change: the strategy's fields and the session affinity. */
  datatype Core = Core(index: nat, sticky: string, affinity: map<string, string>, cells: map<string, Cell>)

  datatype Choice = Choice(model: string, provider: Provider)

  function ProviderIn(providers: seq<Provider>, id: string): Option<Provider> {
    if providers == [] then None
    else if providers[0].id == id then Some(providers[0])
    else ProviderIn(providers[1..], id)
  }

  /** GetProviderForModel */
  function ProviderFor(models: seq<Entry>, providers: seq<Provider>, id: string): Option<Provider> {
    if models == [] then None
    else if models[0].id == id && ProviderIn(providers, models[0].provider).Some? then ProviderIn(providers, models[0].provider)
    else ProviderFor(models[1..], providers, id)
  }

  function ModelIds(cfg: Config): set<string> {
    set e | e in cfg.models :: e.id
  }

  lemma {:induction false} ProviderForIsOurs(models: seq<Entry>, providers: seq<Provider>, id: string)
    requires ProviderFor(models, providers, id).Some?
    ensures exists e :: e in models && e.id == id
  {
    if models[0].id != id {
      ProviderForIsOurs(models[1..], providers, id);
    }
  }

  /** The provider is the first one configured for the first entry with the id that has one. */
  ghost predicate Serves(models: seq<Entry>, providers: seq<Provider>, id: string, k: nat, j: nat) {
    && k < |models| && models[k].id == id
    && j < |providers| && providers[j].id == models[k].provider && (forall i :: 0 <= i < j ==> providers[i].id != models[k].provider)
    && (forall i :: 0 <= i < k && models[i].id == id ==> !Configured(providers, models[i].provider))
  }

  ghost predicate Configured(providers: seq<Provider>, id: string) {
    exists i :: 0 <= i < |providers| && providers[i].id == id
  }

  lemma {:induction false} ProviderInIs(providers: seq<Provider>, id: string) returns (j: nat)
    ensures ProviderIn(providers, id).Some? <==> Configured(providers, id)
    ensures ProviderIn(providers, id).Some? ==>
              && j < |providers| && providers[j] == ProviderIn(providers, id).value && providers[j].id == id
              && forall i :: 0 <= i < j ==> providers[i].id != id
  {
    j := 0;
    if providers != [] && providers[0].id != id {
      var i := ProviderInIs(providers[1..], id);
      j := i + 1;
      assert forall l :: 0 < l < |providers| ==> providers[l] == providers[1..][l - 1];
    }
  }

  /** An id is served by the provider found for it, and by none exactly if no entry with the id names a
      configured provider. */
  lemma {:induction false} ProviderIs(models: seq<Entry>, providers: seq<Provider>, id: string) returns (k: nat, j: nat)
    ensures ProviderFor(models, providers, id).Some? ==>
              Serves(models, providers, id, k, j) && ProviderFor(models, providers, id).value == providers[j]
    ensures ProviderFor(models, providers, id).None? <==>
              forall i :: 0 <= i < |models| && models[i].id == id ==> !Configured(providers, models[i].provider)
  {
    k, j := 0, 0;
    if models != [] {
      j := ProviderInIs(providers, models[0].provider);
      if models[0].id != id || ProviderIn(providers, models[0].provider).None? {
        var i;
        i, j := ProviderIs(models[1..], providers, id);
        k := i + 1;
        assert forall l :: 0 < l < |models| ==> models[l] == models[1..][l - 1];
      }
    }
  }

  predicate Blocked(c: Core, id: string, now: int) {
    id in c.cells && Cooling(c.cells[id], now)
  }

  /** A model a scan may select: not cooling, and served by a configured provider. */
  predicate Routable(cfg: Config, c: Core, id: string, now: int) {
    !Blocked(c, id, now) && ProviderFor(cfg.models, cfg.providers, id).Some?
  }

  /** The effect of looking at these models' breakers while routing. */
  function ProbeIds(c: Core, ids: set<string>, now: int): Core {
    c.(cells := map id | id in c.cells :: if id in ids then ProbeCell(c.cells[id], now) else c.cells[id])
  }

  function Finish(id: string, provider: Option<Provider>): Option<Choice> {
    if id == "" || provider.None? then None else Some(Choice(id, provider.value))
  }

  // ---------- scans in list order, from a starting position ----------

  function PosAt(cfg: Config, start: nat, offset: nat): (p: nat)
    requires |cfg.models| > 0
    ensures p < |cfg.models|
  {
    (start + offset) % |cfg.models|
  }

  function IdAt(cfg: Config, start: nat, offset: nat): string
    requires |cfg.models| > 0
  {
    cfg.models[PosAt(cfg, start, offset)].id
  }

  /** The first offset from k on at which the scan stops. */
  function FirstRoutable(cfg: Config, c: Core, start: nat, k: nat, now: int): (r: Option<nat>)
    requires |cfg.models| > 0 && k <= |cfg.models|
    ensures r.Some? ==> k <= r.value < |cfg.models| && Routable(cfg, c, IdAt(cfg, start, r.value), now)
    ensures forall j :: k <= j < (if r.Some? then r.value else |cfg.models|) ==> !Routable(cfg, c, IdAt(cfg, start, j), now)
    decreases |cfg.models| - k
  {
    if k == |cfg.models| then None
    else if Routable(cfg, c, IdAt(cfg, start, k), now) then Some(k)
    else FirstRoutable(cfg, c, start, k + 1, now)
  }

  function ScannedIds(cfg: Config, start: nat, count: nat): set<string>
    requires |cfg.models| > 0
  {
    set o | 0 <= o < count :: IdAt(cfg, start, o)
  }

  function ScanCount(cfg: Config, c: Core, start: nat, now: int): (n: nat)
    requires |cfg.models| > 0
    ensures n <= |cfg.models|
  {
    var f := FirstRoutable(cfg, c, start, 0, now);
    if f.Some? then f.value + 1 else |cfg.models|
  }

  function ScanChoice(cfg: Config, c: Core, start: nat, now: int): Option<Choice>
    requires |cfg.models| > 0
  {
    match FirstRoutable(cfg, c, start, 0, now)
    case None => None
    case Some(o) =>
      var id := IdAt(cfg, start, o);
      Finish(id, ProviderFor(cfg.models, cfg.providers, id))
  }

  // ---------- weighted choice ----------

  /** Non-positive weights count as one. */
  function WeightOf(e: Entry): (w: nat)
    ensures w >= 1
  {
    if e.weight <= 0 then 1 else e.weight
  }

  /** The total weight of the routable entries among the first n. */
  function WeightUpTo(cfg: Config, c: Core, n: nat, now: int): nat
    requires n <= |cfg.models|
  {
    if n == 0 then 0
    else WeightUpTo(cfg, c, n - 1, now) +
         if Routable(cfg, c, cfg.models[n - 1].id, now) then WeightOf(cfg.models[n - 1]) else 0
  }

  /** The entry at which the running total first exceeds r. */
  function PickEntry(cfg: Config, c: Core, r: nat, k: nat, now: int): (p: nat)
    requires k <= |cfg.models|
    requires WeightUpTo(cfg, c, k, now) <= r < WeightUpTo(cfg, c, |cfg.models|, now)
    ensures k <= p < |cfg.models|
    ensures WeightUpTo(cfg, c, p, now) <= r < WeightUpTo(cfg, c, p + 1, now)
    decreases |cfg.models| - k
  {
    if r < WeightUpTo(cfg, c, k + 1, now) then k else PickEntry(cfg, c, r, k + 1, now)
  }

  /** The session's remembered model, when the strategy is sticky at all. */
  function StickyFor(c: Core, session: string): Option<string> {
    if c.sticky != "" && session != "" && session in c.affinity && c.affinity[session] != "" then Some(c.affinity[session])
    else None
  }

  predicate StickyHit(cfg: Config, c: Core, session: string, now: int) {
    var s := StickyFor(c, session);
    s.Some? && Routable(cfg, c, s.value, now)
  }

  // ---------- one routing decision ----------

  /** The models whose breakers the decision looks at. */
  function ProbedIds(cfg: Config, c: Core, session: string, now: int): set<string> {
    if |cfg.models| == 0 then {}
    else match cfg.kind
      case Single | Unknown => {}
      case Fallback => ScannedIds(cfg, 0, ScanCount(cfg, c, 0, now))
      case RoundRobin => ScannedIds(cfg, c.index, ScanCount(cfg, c, c.index, now))
      case Weighted =>
        var s := StickyFor(c, session);
        (if s.Some? then {s.value} else {}) + (if StickyHit(cfg, c, session, now) then {} else ModelIds(cfg))
  }

  function RouteChoice(cfg: Config, c: Core, session: string, pick: nat, now: int): Option<Choice> {
    if |cfg.models| == 0 then None
    else match cfg.kind
      case Unknown => None
      case Single => Finish(cfg.models[0].id, ProviderFor(cfg.models, cfg.providers, cfg.models[0].id))
      case Fallback => ScanChoice(cfg, c, 0, now)
      case RoundRobin => ScanChoice(cfg, c, c.index, now)
      case Weighted =>
        if StickyHit(cfg, c, session, now) then
          Finish(StickyFor(c, session).value, ProviderFor(cfg.models, cfg.providers, StickyFor(c, session).value))
        else
          var total := WeightUpTo(cfg, c, |cfg.models|, now);
          if total == 0 then None
          else
            var id := cfg.models[PickEntry(cfg, c, pick % total, 0, now)].id;
            Finish(id, ProviderFor(cfg.models, cfg.providers, id))
  }

  function RouteIndex(cfg: Config, c: Core, now: int): nat {
    if |cfg.models| == 0 || !cfg.kind.RoundRobin? then c.index
    else match FirstRoutable(cfg, c, c.index, 0, now)
      case None => c.index
      case Some(o) => PosAt(cfg, c.index, o + 1)
  }

  /** The model newly remembered by a weighted decision, if it made a new one. */
  function NewSticky(cfg: Config, c: Core, session: string, pick: nat, now: int): Option<string> {
    if |cfg.models| == 0 || !cfg.kind.Weighted? || StickyHit(cfg, c, session, now) then None
    else
      var total := WeightUpTo(cfg, c, |cfg.models|, now);
      if total == 0 then None else Some(cfg.models[PickEntry(cfg, c, pick % total, 0, now)].id)
  }

  function RouteCore(cfg: Config, c: Core, session: string, pick: nat, now: int): Core {
    var probed := ProbeIds(c, ProbedIds(cfg, c, session, now), now).(index := RouteIndex(cfg, c, now));
    match NewSticky(cfg, c, session, pick, now)
    case None => probed
    case Some(id) =>
      probed.(sticky := id, affinity := if session != "" then c.affinity[session := id] else c.affinity)
  }

  // ---------- properties of one decision ----------

  /** A model may be selected exactly if it is served, and its breaker is not Open or has been so for more
      than 300 seconds. */
  lemma RoutableIff(cfg: Config, c: Core, id: string, now: int)
    ensures Routable(cfg, c, id, now) <==>
              && (exists i :: 0 <= i < |cfg.models| && cfg.models[i].id == id && Configured(cfg.providers, cfg.models[i].provider))
              && !(id in c.cells && c.cells[id].breaker.state == Open && now - c.cells[id].breaker.lastChange <= 300_000_000_000)
  {
    var k, j := ProviderIs(cfg.models, cfg.providers, id);
  }

  /** Does the decision look at this model's breaker? A scan looks at every position up to the first
      routable one; a weighted decision at the model its session is remembered by, and at all models
      unless it keeps that one. */
  ghost predicate LooksAt(cfg: Config, c: Core, session: string, id: string, now: int) {
    match cfg.kind
    case Single | Unknown => false
    case Fallback => ScanReaches(cfg, c, 0, id, now)
    case RoundRobin => ScanReaches(cfg, c, c.index, id, now)
    case Weighted =>
      var remembered := c.sticky != "" && session != "" && session in c.affinity && c.affinity[session] != "";
      || (remembered && id == c.affinity[session])
      || (!(remembered && Routable(cfg, c, c.affinity[session], now)) && id in ModelIds(cfg))
  }

  ghost predicate ScanReaches(cfg: Config, c: Core, start: nat, id: string, now: int) {
    exists o :: 0 <= o < |cfg.models| && IdAt(cfg, start, o) == id && NoneBefore(cfg, c, start, o, now)
  }

  ghost predicate NoneBefore(cfg: Config, c: Core, start: nat, o: nat, now: int)
    requires |cfg.models| > 0
  {
    forall k :: 0 <= k < o ==> !Routable(cfg, c, IdAt(cfg, start, k), now)
  }

  /** What a decision does to the breakers: those it looks at that have been Open for more than 300
      seconds are on probation from now on, with an empty window, and all others are as they were. */
  lemma DecisionProbes(cfg: Config, c: Core, session: string, pick: nat, now: int, id: string)
    requires id in c.cells && |cfg.models| > 0
    ensures RouteCore(cfg, c, session, pick, now).cells.Keys == c.cells.Keys
    ensures RouteCore(cfg, c, session, pick, now).cells[id] ==
              var b := c.cells[id].breaker;
              if LooksAt(cfg, c, session, id, now) && b.state == Open && now - b.lastChange > 300_000_000_000 then
                Cell(Breaker(HalfOpen, now), Metrics(0, 0, 0, 0, 0))
              else c.cells[id]
  {
    LookedAtIff(cfg, c, session, now, id);
  }

  lemma LookedAtIff(cfg: Config, c: Core, session: string, now: int, id: string)
    requires |cfg.models| > 0
    ensures id in ProbedIds(cfg, c, session, now) <==> LooksAt(cfg, c, session, id, now)
  {
    if cfg.kind.Fallback? {
      ScannedIff(cfg, c, 0, id, now);
    } else if cfg.kind.RoundRobin? {
      ScannedIff(cfg, c, c.index, id, now);
    }
  }

  lemma ScannedIff(cfg: Config, c: Core, start: nat, id: string, now: int)
    requires |cfg.models| > 0
    ensures id in ScannedIds(cfg, start, ScanCount(cfg, c, start, now)) <==> ScanReaches(cfg, c, start, id, now)
  {
    var n, f := ScanCount(cfg, c, start, now), FirstRoutable(cfg, c, start, 0, now);
    if id in ScannedIds(cfg, start, n) {
      var o :| 0 <= o < n && IdAt(cfg, start, o) == id;
      assert NoneBefore(cfg, c, start, o, now);
    }
    if ScanReaches(cfg, c, start, id, now) {
      var o :| 0 <= o < |cfg.models| && IdAt(cfg, start, o) == id && NoneBefore(cfg, c, start, o, now);
      assert f.Some? ==> o <= f.value;
    }
  }

  /** Single goes to its first model, whatever the breakers say, and fails only if that is not served or
      has no name; an unknown kind of strategy goes nowhere. */
  lemma SingleIsFirst(cfg: Config, c: Core, session: string, pick: nat, now: int)
    requires cfg.kind.Single? || cfg.kind.Unknown?
    ensures RouteChoice(cfg, c, session, pick, now).Some? <==>
              && cfg.kind.Single? && |cfg.models| > 0 && cfg.models[0].id != ""
              && exists i :: 0 <= i < |cfg.models| && cfg.models[i].id == cfg.models[0].id && Configured(cfg.providers, cfg.models[i].provider)
    ensures RouteCore(cfg, c, session, pick, now) == c
  {
    ProbeNone(c, now);
    if |cfg.models| > 0 {
      var k, j := ProviderIs(cfg.models, cfg.providers, cfg.models[0].id);
    }
  }

  lemma ProbeNone(c: Core, now: int)
    ensures ProbeIds(c, {}, now) == c
  {
    assert ProbeIds(c, {}, now).cells == c.cells;
  }

  /** Only Single ever routes to a model whose breaker is Open and still cooling, and every
      strategy routes only to a model of its own that has a provider. */
  lemma RouteSelectsRoutable(cfg: Config, c: Core, session: string, pick: nat, now: int)
    requires RouteChoice(cfg, c, session, pick, now).Some?
    ensures var ch := RouteChoice(cfg, c, session, pick, now).value;
            && ch.model in ModelIds(cfg)
            && ProviderFor(cfg.models, cfg.providers, ch.model) == Some(ch.provider)
            && (!cfg.kind.Single? ==> !Blocked(c, ch.model, now))
            && (cfg.kind.Single? ==> ch.model == cfg.models[0].id)
  {
    var ch := RouteChoice(cfg, c, session, pick, now).value;
    ProviderForIsOurs(cfg.models, cfg.providers, ch.model);
    var e :| e in cfg.models && e.id == ch.model;
    if cfg.kind.Weighted? && !StickyHit(cfg, c, session, now) {
      PickIsRoutable(cfg, c, pick % WeightUpTo(cfg, c, |cfg.models|, now), now);
    }
  }

  lemma PickIsRoutable(cfg: Config, c: Core, r: nat, now: int)
    requires r < WeightUpTo(cfg, c, |cfg.models|, now)
    ensures Routable(cfg, c, cfg.models[PickEntry(cfg, c, r, 0, now)].id, now)
  {
    var p := PickEntry(cfg, c, r, 0, now);
    assert WeightUpTo(cfg, c, p, now) < WeightUpTo(cfg, c, p + 1, now);
  }

  lemma {:induction false} WeightMonotone(cfg: Config, c: Core, a: nat, b: nat, now: int)
    requires a <= b <= |cfg.models|
    ensures WeightUpTo(cfg, c, a, now) <= WeightUpTo(cfg, c, b, now)
    decreases b
  {
    if a < b {
      WeightMonotone(cfg, c, a, b - 1, now);
    }
  }

  /** Weighted selection is proportional: exactly the draws in an interval as long as the
      entry's weight lead to a routable entry, and none lead to another. */
  lemma WeightedShare(cfg: Config, c: Core, p: nat, r: nat, now: int)
    requires p < |cfg.models| && r < WeightUpTo(cfg, c, |cfg.models|, now)
    ensures PickEntry(cfg, c, r, 0, now) == p <==> WeightUpTo(cfg, c, p, now) <= r < WeightUpTo(cfg, c, p + 1, now)
    ensures WeightUpTo(cfg, c, p + 1, now) - WeightUpTo(cfg, c, p, now) ==
              if Routable(cfg, c, cfg.models[p].id, now) then WeightOf(cfg.models[p]) else 0
  {
    var q := PickEntry(cfg, c, r, 0, now);
    if q < p {
      WeightMonotone(cfg, c, q + 1, p, now);
    } else if p < q {
      WeightMonotone(cfg, c, p + 1, q, now);
    }
  }

  /** A decision fails exactly when nothing is routable; for a weighted strategy the model the
      session is stuck to is one of the models, so it adds nothing. */
  lemma RouteFailsIffNothingRoutable(cfg: Config, c: Core, session: string, pick: nat, now: int)
    requires cfg.kind in {Fallback, RoundRobin, Weighted}
    requires "" !in ModelIds(cfg)
    ensures RouteChoice(cfg, c, session, pick, now).None? <==> forall e :: e in cfg.models ==> !Routable(cfg, c, e.id, now)
  {
    if |cfg.models| > 0 {
      if cfg.kind.Weighted? {
        if StickyHit(cfg, c, session, now) {
          ProviderForIsOurs(cfg.models, cfg.providers, StickyFor(c, session).value);
        } else {
          var n := |cfg.models|;
          WeightZeroIff(cfg, c, n, now);
          if WeightUpTo(cfg, c, n, now) > 0 {
            var p := PickEntry(cfg, c, pick % WeightUpTo(cfg, c, n, now), 0, now);
            PickIsRoutable(cfg, c, pick % WeightUpTo(cfg, c, n, now), now);
            assert cfg.models[p] in cfg.models;
          }
        }
      } else {
        var start := if cfg.kind.Fallback? then 0 else c.index;
        match FirstRoutable(cfg, c, start, 0, now)
        case Some(o) =>
          assert cfg.models[PosAt(cfg, start, o)] in cfg.models;
        case None =>
          forall e | e in cfg.models ensures !Routable(cfg, c, e.id, now) {
            var i :| 0 <= i < |cfg.models| && cfg.models[i] == e;
            var o := OffsetOf(cfg, start, i);
            assert IdAt(cfg, start, o) == e.id;
          }
      }
    }
  }

  lemma {:induction false} WeightZeroIff(cfg: Config, c: Core, n: nat, now: int)
    requires n <= |cfg.models|
    ensures WeightUpTo(cfg, c, n, now) == 0 <==> forall i :: 0 <= i < n ==> !Routable(cfg, c, cfg.models[i].id, now)
  {
    if n > 0 {
      WeightZeroIff(cfg, c, n - 1, now);
    }
  }

  /** Every position is reached by exactly one offset below the list's length. */
  lemma OffsetOf(cfg: Config, start: nat, i: nat) returns (o: nat)
    requires i < |cfg.models|
    ensures o < |cfg.models| && PosAt(cfg, start, o) == i
  {
    var n := |cfg.models|;
    var s := start % n;
    o := if s <= i then i - s else i + n - s;
    ModShift(start, o, n);
    ModSmall(s, o, i, n);
  }

  lemma ModShift(a: nat, b: nat, n: nat)
    requires n > 0
    ensures (a + b) % n == (a % n + b) % n
  {
    var x := a % n + b;
    assert a + b == (a / n + x / n) * n + x % n by {
      assert a == (a / n) * n + a % n && x == (x / n) * n + x % n;
    }
    ModUnique(a + b, a / n + x / n, x % n, n);
  }

  lemma ModUnique(a: nat, q: nat, r: nat, n: nat)
    requires r < n && a == q * n + r
    ensures a % n == r
  {
    var d: int := a / n - q;
    assert d * n == r - a % n by {
      assert a == (a / n) * n + a % n;
    }
    if d != 0 {
      MultipleIsFar(d, n);
    }
  }

  lemma {:induction false} MultipleIsFar(d: int, n: nat)
    requires d != 0
    ensures d * n >= n || d * n + n <= 0
    decreases if d < 0 then -d else d
  {
    if d > 1 {
      MultipleIsFar(d - 1, n);
      assert d * n == (d - 1) * n + n;
    } else if d < -1 {
      MultipleIsFar(d + 1, n);
      assert d * n + n == (d + 1) * n;
    }
  }

  lemma ModSmall(s: nat, o: nat, i: nat, n: nat)
    requires i < n && (s + o == i || s + o == i + n)
    ensures (s + o) % n == i
  {
    ModUnique(s + o, if s + o == i then 0 else 1, i, n);
  }

  lemma FromTheTop(cfg: Config, j: nat)
    requires j < |cfg.models|
    ensures IdAt(cfg, 0, j) == cfg.models[j].id
  {
    ModSmall(0, j, j, |cfg.models|);
  }

  /** Fallback selects position p exactly when p is the first routable position in list order. */
  lemma FallbackTakesFirst(cfg: Config, c: Core, session: string, pick: nat, now: int, p: nat)
    requires cfg.kind.Fallback? && p < |cfg.models|
    ensures (Routable(cfg, c, cfg.models[p].id, now) && forall j :: 0 <= j < p ==> !Routable(cfg, c, cfg.models[j].id, now))
              <==> FirstRoutable(cfg, c, 0, 0, now) == Some(p)
    ensures FirstRoutable(cfg, c, 0, 0, now) == Some(p) && cfg.models[p].id != "" ==>
              RouteChoice(cfg, c, session, pick, now) ==
              Some(Choice(cfg.models[p].id, ProviderFor(cfg.models, cfg.providers, cfg.models[p].id).value))
  {
    forall j | 0 <= j < |cfg.models| ensures IdAt(cfg, 0, j) == cfg.models[j].id { FromTheTop(cfg, j); }
  }

  /** The wedge fix: whatever the strategy, a scan or weighted draw that selects a model whose
      breaker is Open turns it HalfOpen with an empty window. */
  lemma {:induction false} SelectedOpenModelIsProbed(cfg: Config, c: Core, session: string, pick: nat, now: int)
    requires !cfg.kind.Single? && RouteChoice(cfg, c, session, pick, now).Some?
    requires var m := RouteChoice(cfg, c, session, pick, now).value.model;
             m in c.cells && c.cells[m].breaker.state.Open?
    ensures var m := RouteChoice(cfg, c, session, pick, now).value.model;
            RouteCore(cfg, c, session, pick, now).cells[m] == Cell(Breaker(HalfOpen, now), FRESH)
  {
    RouteSelectsRoutable(cfg, c, session, pick, now);
    var m := RouteChoice(cfg, c, session, pick, now).value.model;
    assert m in ProbedIds(cfg, c, session, now);
  }

  // ---------- events and runs ----------

  datatype Action =
    | Route(session: string, pick: nat)
    | Record(id: string, o: Outcome)
    | Check(id: string)
    | Force(id: string)
    | Switch(session: string, id: string)    // POST /v1/meta-models/switch
    | ForceAll(id: string)                   // POST /v1/meta-models/force
    | Remember(session: string, id: string)  // another strategy writes the shared affinity

  datatype Event = Event(now: int, action: Action)

  /** The admin endpoints accept a model of the strategy whose breaker is not Open. */
  predicate Accepted(cfg: Config, c: Core, id: string) {
    id != "" && id in ModelIds(cfg) && (id in c.cells ==> !c.cells[id].breaker.state.Open?)
  }

  function OnCell(c: Core, id: string, op: CellOp, now: int): Core {
    if id in c.cells then c.(cells := c.cells[id := ApplyOp(c.cells[id], op, now)]) else c
  }

  function Step(cfg: Config, c: Core, e: Event): Core {
    match e.action
    case Route(session, pick) => RouteCore(cfg, c, session, pick, e.now)
    case Record(id, o) => OnCell(c, id, CellOp.Record(o), e.now)
    case Check(id) => OnCell(c, id, CellOp.Check, e.now)
    case Force(id) => OnCell(c, id, CellOp.Force, e.now)
    case Switch(session, id) =>
      if session != "" && Accepted(cfg, c, id) then c.(sticky := id, affinity := c.affinity[session := id]) else c
    case ForceAll(id) =>
      if Accepted(cfg, c, id) then c.(sticky := id, affinity := map s | s in c.affinity :: id) else c
    case Remember(session, id) => c.(affinity := c.affinity[session := id])
  }

  function Run(cfg: Config, c: Core, evs: seq<Event>): Core
    decreases |evs|
  {
    if evs == [] then c else Step(cfg, Run(cfg, c, evs[..|evs| - 1]), evs[|evs| - 1])
  }

  lemma {:induction false} RunAppend(cfg: Config, c: Core, a: seq<Event>, b: seq<Event>)
    ensures Run(cfg, c, a + b) == Run(cfg, Run(cfg, c, a), b)
    decreases |b|
  {
    if b == [] {
      assert a + b == a;
    } else {
      assert (a + b)[..|a + b| - 1] == a + b[..|b| - 1];
      RunAppend(cfg, c, a, b[..|b| - 1]);
    }
  }

  /** The one operation an event performs on a given model's cell, if any. */
  function OpOn(cfg: Config, c: Core, e: Event, id: string): Option<CellOp> {
    match e.action
    case Route(session, _) => if id in ProbedIds(cfg, c, session, e.now) then Some(Probe) else None
    case Record(i, o) => if i == id then Some(CellOp.Record(o)) else None
    case Check(i) => if i == id then Some(CellOp.Check) else None
    case Force(i) => if i == id then Some(CellOp.Force) else None
    case _ => None
  }

  function OpsOn(cfg: Config, c: Core, evs: seq<Event>, id: string): seq<Timed>
    decreases |evs|
  {
    if evs == [] then []
    else
      var n := |evs| - 1;
      match OpOn(cfg, Run(cfg, c, evs[..n]), evs[n], id)
      case None => OpsOn(cfg, c, evs[..n], id)
      case Some(op) => OpsOn(cfg, c, evs[..n], id) + [Timed(op, evs[n].now)]
  }

  lemma StepOnCell(cfg: Config, c: Core, e: Event, id: string)
    requires id in c.cells
    ensures Step(cfg, c, e).cells.Keys == c.cells.Keys
    ensures Step(cfg, c, e).cells[id] ==
              match OpOn(cfg, c, e, id) case None => c.cells[id] case Some(op) => ApplyOp(c.cells[id], op, e.now)
  {
  }

  /** Seen from one model, any run of the whole proxy is a run of its own cell. */
  lemma {:induction false} CellViewOfRun(cfg: Config, c: Core, evs: seq<Event>, id: string)
    requires id in c.cells
    ensures Run(cfg, c, evs).cells.Keys == c.cells.Keys
    ensures Run(cfg, c, evs).cells[id] == RunCell(c.cells[id], OpsOn(cfg, c, evs, id))
    decreases |evs|
  {
    if evs != [] {
      var n := |evs| - 1;
      CellViewOfRun(cfg, c, evs[..n], id);
      var prev := Run(cfg, c, evs[..n]);
      var ops := OpsOn(cfg, c, evs[..n], id);
      StepOnCell(cfg, prev, evs[n], id);
      match OpOn(cfg, prev, evs[n], id)
      case None =>
      case Some(op) =>
        assert (ops + [Timed(op, evs[n].now)])[..|ops|] == ops;
    }
  }

  ghost predicate EventsWithin(evs: seq<Event>, lo: int, hi: int) {
    forall i :: 0 <= i < |evs| ==> lo <= evs[i].now <= hi
  }

  lemma {:induction false} OpsWithin(cfg: Config, c: Core, evs: seq<Event>, id: string, lo: int, hi: int)
    requires EventsWithin(evs, lo, hi)
    ensures TimesWithin(OpsOn(cfg, c, evs, id), lo, hi)
    decreases |evs|
  {
    if evs != [] {
      OpsWithin(cfg, c, evs[..|evs| - 1], id, lo, hi);
    }
  }

  /** Open since the given moment or later. */
  ghost predicate OpenSince(c: Core, id: string, since: int) {
    id in c.cells && c.cells[id].breaker.state.Open? && c.cells[id].breaker.lastChange >= since
  }

  /** System-wide quarantine: after a breaker opened, whatever requests, checks, probes and admin
      calls run during one cooldown, it stays Open and its clock does not run backwards. */
  lemma {:induction false} OpenStaysOpen(cfg: Config, c: Core, evs: seq<Event>, id: string, since: int)
    requires OpenSince(c, id, since)
    requires EventsWithin(evs, since, since + COOLDOWN)
    ensures OpenSince(Run(cfg, c, evs), id, since)
  {
    CellViewOfRun(cfg, c, evs, id);
    OpsWithin(cfg, c, evs, id, since, since + COOLDOWN);
    QuarantineHolds(c.cells[id], OpsOn(cfg, c, evs, id), since);
  }

  /** ... and no fallback, round-robin or weighted decision taken meanwhile selects it. */
  lemma QuarantinedModelIsNeverRouted(cfg: Config, c: Core, evs: seq<Event>, id: string, since: int,
                                      session: string, pick: nat, now: int)
    requires !cfg.kind.Single?
    requires OpenSince(c, id, since)
    requires EventsWithin(evs, since, since + COOLDOWN)
    requires since <= now <= since + COOLDOWN
    ensures var r := RouteChoice(cfg, Run(cfg, c, evs), session, pick, now);
            r.Some? ==> r.value.model != id
  {
    OpenStaysOpen(cfg, c, evs, id, since);
    var c' := Run(cfg, c, evs);
    if RouteChoice(cfg, c', session, pick, now).Some? {
      RouteSelectsRoutable(cfg, c', session, pick, now);
    }
  }

  /** In a whole run, a model whose breaker is Open at one point and Closed at a later one was
      HalfOpen in between, and left Open only after a full cooldown. */
  lemma RecoveryIsProbed(cfg: Config, c: Core, evs: seq<Event>, id: string) returns (k: nat)
    requires id in c.cells && c.cells[id].breaker.state.Open?
    requires id in Run(cfg, c, evs).cells && Run(cfg, c, evs).cells[id].breaker.state.Closed?
    ensures var ops := OpsOn(cfg, c, evs, id);
            && 0 < k < |ops|
            && RunCell(c.cells[id], ops[..k]).breaker.state.HalfOpen?
            && RunCell(c.cells[id], ops[..k - 1]).breaker.state.Open?
            && Cooled(RunCell(c.cells[id], ops[..k - 1]).breaker, ops[k - 1].now)
  {
    CellViewOfRun(cfg, c, evs, id);
    k := RecoveryGoesThroughHalfOpen(c.cells[id], OpsOn(cfg, c, evs, id));
  }

  /** A strategy as initStrategies leaves it. */
  ghost predicate Initial(cfg: Config, c: Core, now: int) {
    c.index == 0 && c.sticky == "" && c.cells == map id | id in ModelIds(cfg) :: NewCell(now)
  }

  /** In every reachable state of the proxy, each model's counters are exactly the outcomes
      recorded for it since its breaker last turned HalfOpen (or since the start), and
      consecutive failures never exceed errors, nor errors requests. */
  lemma CountersInEveryRun(cfg: Config, c: Core, now: int, evs: seq<Event>, id: string)
    requires Initial(cfg, c, now) && id in ModelIds(cfg)
    ensures id in Run(cfg, c, evs).cells
    ensures var m := Run(cfg, c, evs).cells[id].metrics;
            && m == Tally(Window(NewCell(now), OpsOn(cfg, c, evs, id)))
            && m.consecutive <= m.errors <= m.requests
  {
    CellViewOfRun(cfg, c, evs, id);
    CountersAreTheWindow(now, OpsOn(cfg, c, evs, id));
    CountersStayOrdered(now, OpsOn(cfg, c, evs, id));
  }

  /** In every reachable state, a check of a model changes its cell alone, and by the verdict on the
      outcomes recorded for it since its last probe. */
  lemma CheckedInEveryRun(cfg: Config, c: Core, now0: int, evs: seq<Event>, id: string, now: int)
    requires Initial(cfg, c, now0) && id in ModelIds(cfg)
    ensures var before := Run(cfg, c, evs);
            && id in before.cells
            && Step(cfg, before, Event(now, Action.Check(id))) ==
               before.(cells := before.cells[id := Verdict(before.cells[id], Window(NewCell(now0), OpsOn(cfg, c, evs, id)), now)])
  {
    CellViewOfRun(cfg, c, evs, id);
    CheckVerdict(now0, OpsOn(cfg, c, evs, id), now);
  }

  /** The round-robin cursor stays inside the list, in every run. */
  lemma {:induction false} IndexStaysInRange(cfg: Config, c: Core, evs: seq<Event>)
    requires c.index < |cfg.models|
    ensures Run(cfg, c, evs).index < |cfg.models|
    decreases |evs|
  {
    if evs != [] {
      IndexStaysInRange(cfg, c, evs[..|evs| - 1]);
    }
  }
}
