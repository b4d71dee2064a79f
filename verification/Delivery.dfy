/** What a run of the comms bus keeps: directives are neither lost nor doubled, and message
    ids are fresh (internal/comms/commands.go). */
module Delivery {
  import opened Text
  import opened Decimal
  import opened Names
  import opened Disk

  // ---------- fresh ids ----------

  /** Neither the counter nor any id in use has reached the top of int64. */
  predicate Room(d: Disk) {
    SeqValue(d.seqFile) < MAX_INT64 && forall l :: l in d.msgs ==> ParseIdNum(l.id) < MAX_INT64
  }

  /** The next id is strictly above every id in the store, whatever the counter file holds,
      exactly while neither has reached the top of int64. */
  lemma NextIdIsFreshIff(s: SeqFile, highest: nat)
    requires s.Number? ==> -TWO63 <= s.n < TWO63
    requires highest < TWO64
    ensures ParseIdNum(FormatId(NextNum(s, highest))) > highest <==> highest < MAX_INT64 && SeqValue(s) < MAX_INT64
    ensures highest < MAX_INT64 && SeqValue(s) < MAX_INT64 ==> NextNum(s, highest) > SeqValue(s) && NextNum(s, highest) > 0
  {
    var hi := ToInt(highest);
    var base := if hi > SeqValue(s) then hi else SeqValue(s);
    WrapAtTop(base + 1);
    ParseInvertsFormat(NextNum(s, highest));
  }

  /** It is one more than the larger of the counter, 0 if there is none, and the highest id. */
  lemma NextIdIs(s: SeqFile, highest: nat)
    requires (s.Number? ==> -0x8000_0000_0000_0000 <= s.n < 0x7fff_ffff_ffff_ffff) && highest < 0x7fff_ffff_ffff_ffff
    ensures NextNum(s, highest) ==
              match s
              case NoNumber => highest + 1
              case Number(n) => if n > highest then n + 1 else highest + 1
  {
    WrapAtTop(NextNum(s, highest));
  }

  lemma WrapAtTop(n: int)
    requires -TWO63 <= n <= TWO63
    ensures Wrap(n) == if n == TWO63 then -TWO63 else n
  {
  }

  lemma NextIdIsNew(d: Disk, highest: nat)
    requires Valid(d) && Room(d) && highest < TWO64 && IsHighest(d, highest)
    ensures forall l :: l in d.msgs ==> l.id != FormatId(NextNum(d.seqFile, highest))
    ensures GoodId(FormatId(NextNum(d.seqFile, highest)))
    ensures NextNum(d.seqFile, highest) > SeqValue(d.seqFile) && NextNum(d.seqFile, highest) > highest
  {
    NextIdIsFreshIff(d.seqFile, highest);
    var n := NextNum(d.seqFile, highest);
    ParseInvertsFormat(n);
    ValueOfPadded(Digits(n), 4);
  }

  // ---------- events ----------

  datatype Event =
    | PostEvent(me: string, from: string, target: string, text: string, now: int)
    | AckEvent(me: string, id: string)
    | InitEvent(me: string, now: int, ttl: int)
    | PruneEvent(now: int, ttl: int)
    | StatusEvent(agent: string, status: Option<Status>)
    | SeqEvent(content: SeqFile)   // the counter file is lost or overwritten

  predicate GoodEvent(e: Event) {
    match e
    case PostEvent(me, _, target, _, _) => GoodShip(me) && (target == ALL || GoodShip(target))
    case AckEvent(me, _) => GoodShip(me)
    case InitEvent(me, _, _) => GoodShip(me)
    case PruneEvent(_, _) => true
    case StatusEvent(agent, _) => GoodShip(agent)
    case SeqEvent(content) => content.Number? ==> -TWO63 <= content.n < TWO63
  }

  ghost predicate Step(d: Disk, e: Event, d': Disk) {
    match e
    case PostEvent(me, from, target, text, now) =>
      exists u :: 0 <= u < TWO64 && IsHighest(d, u) && d' == Post(d, me, from, target, text, now, u)
    case AckEvent(me, id) => d' == (if Safe(id).None? then d else Ack(d, me, Safe(id).value))
    case InitEvent(me, now, ttl) => exists order :: InitStep(d, me, now, ttl, order, d')
    case PruneEvent(now, ttl) => d' == Prune(d, now, ttl)
    case StatusEvent(agent, status) =>
      d' == d.(status := if status.Some? then d.status[agent := status.value] else d.status - {agent})
    case SeqEvent(content) => d' == d.(seqFile := content)
  }

  // ---------- where a ship's copy is ----------

  datatype Phase = Absent | In(box: Box, rec: Rec)

  function PhaseOf(d: Disk, ship: string, id: string): Phase {
    if Loc(ship, Unseen, id) in d.msgs then In(Unseen, d.msgs[Loc(ship, Unseen, id)])
    else if Loc(ship, Seen, id) in d.msgs then In(Seen, d.msgs[Loc(ship, Seen, id)])
    else Absent
  }

  /** The ways one command can change one ship's copy of one directive. */
  ghost predicate LegalChange(d: Disk, e: Event, p: Phase, p': Phase, ship: string, id: string) {
    match p
    case Absent =>
      // only a post brings a copy, unseen, to a recipient it addresses
      p'.Absent? || (p'.In? && p'.box.Unseen? && e.PostEvent? && ship in Recipients(d, e.me, e.target) && p'.rec.epoch == e.now)
    case In(Unseen, r) =>
      || p' == p
      // only the ship itself acks, and the record stays what it was
      || (p' == In(Seen, r) && (e.AckEvent? || e.InitEvent?) && e.me == ship)
      // removed without an ack of its own only when stale and its ship is not live; the ship
      // that runs init acks everything it has before the same call prunes
      || (p'.Absent? && (e.PruneEvent? || e.InitEvent?) && StaleMsg(r, e.now, e.ttl)
          && (ship !in Live(d, e.now, e.ttl) || (e.InitEvent? && e.me == ship)))
    case In(Seen, r) =>
      || p' == p
      || (p'.Absent? && (e.PruneEvent? || e.InitEvent?) && StaleMsg(r, e.now, e.ttl))
  }

  // ---------- one step ----------

  lemma RecipientsAreGood(d: Disk, me: string, target: string)
    requires Valid(d) && GoodShip(me) && (target == ALL || GoodShip(target))
    ensures forall r :: r in Recipients(d, me, target) ==> GoodShip(r)
  {
    forall r | r in Recipients(d, me, target) ensures GoodShip(r) {
      if target == ALL && r != me && r !in d.status {
        assert Fsafe(r) == r;
        assert forall i :: 0 <= i < |r| ==> Fsafe(r)[i] == r[i];
      }
    }
  }

  lemma FsafeOfGood(s: string)
    requires GoodShip(s)
    ensures Fsafe(s) == s
  {
  }

  /** The store after a post: the old copies and the new ones, at places nobody had used. */
  lemma PostedCopies(d: Disk, e: Event, u: nat, d': Disk)
    requires Valid(d) && GoodEvent(e) && e.PostEvent? && Room(d) && u < TWO64 && IsHighest(d, u)
    requires d' == Post(d, e.me, e.from, e.target, e.text, e.now, u)
    ensures var id := FormatId(NextNum(d.seqFile, u));
            && GoodId(id)
            && (forall l :: l in d.msgs ==> l.id != id && l in d'.msgs && d'.msgs[l] == d.msgs[l])
            && (forall l :: l in d'.msgs <==> l in d.msgs || (l.box.Unseen? && l.id == id && l.ship in Recipients(d, e.me, e.target)))
            && (forall l :: l in d'.msgs && l !in d.msgs ==> d'.msgs[l] == Rec(id, e.now, e.from, l.ship, e.text))
    ensures d'.dirs == d.dirs + Recipients(d, e.me, e.target) && d'.status == d.status
    ensures d'.seqFile == Number(NextNum(d.seqFile, u))
  {
    NextIdIsNew(d, u);
  }

  /** Is the ship addressed? A broadcast goes to its sender and to everyone known by a message directory or
      a status record, hidden names and the old shared one apart; any other post to its target alone. */
  ghost predicate Addressed(d: Disk, me: string, target: string, ship: string) {
    if target == "all" then
      ship == me || ((ship in d.dirs || ship in d.status) && ship != "" && ship[0] != '.' && ship != "all")
    else ship == target
  }

  /** What a post brings: exactly one new copy, unseen and under one id that was not in use, to exactly the
      ships that are addressed, and nothing else changes. */
  lemma PostReaches(d: Disk, e: Event, d': Disk) returns (id: string)
    requires Valid(d) && GoodEvent(e) && e.PostEvent? && Room(d) && Step(d, e, d')
    ensures forall l :: l in d.msgs ==> l.id != id
    ensures forall l :: l in d'.msgs <==> l in d.msgs || (l.box.Unseen? && l.id == id && Addressed(d, e.me, e.target, l.ship))
    ensures forall l :: l in d'.msgs ==> d'.msgs[l] == if l in d.msgs then d.msgs[l] else Rec(id, e.now, e.from, l.ship, e.text)
    ensures d'.status == d.status
    ensures forall ship :: ship in d'.dirs <==> ship in d.dirs || Addressed(d, e.me, e.target, ship)
  {
    var u :| 0 <= u < TWO64 && IsHighest(d, u) && d' == Post(d, e.me, e.from, e.target, e.text, e.now, u);
    PostedCopies(d, e, u, d');
    id := FormatId(NextNum(d.seqFile, u));
    forall ship ensures ship in Recipients(d, e.me, e.target) <==> Addressed(d, e.me, e.target, ship) {
      assert ship != "" ==> (HasPrefix(ship, ".") <==> ship[0] == '.') by {
        if ship != "" {
          assert ship[..1] == [ship[0]];
        }
      }
    }
  }

  lemma PostStep(d: Disk, e: Event, u: nat, d': Disk)
    requires Valid(d) && GoodEvent(e) && e.PostEvent? && Room(d) && u < TWO64 && IsHighest(d, u)
    requires d' == Post(d, e.me, e.from, e.target, e.text, e.now, u)
    ensures Valid(d')
    ensures forall ship, id :: LegalChange(d, e, PhaseOf(d, ship, id), PhaseOf(d', ship, id), ship, id)
  {
    PostedCopies(d, e, u, d');
    RecipientsAreGood(d, e.me, e.target);
    forall s | s in d'.dirs ensures s != "" && Fsafe(s) == s {
      if s in Recipients(d, e.me, e.target) {
        FsafeOfGood(s);
      }
    }
    PostIsLegal(d, e, d');
  }

  lemma PostIsLegal(d: Disk, e: Event, d': Disk)
    requires e.PostEvent?
    requires forall l :: l in d.msgs ==> l in d'.msgs && d'.msgs[l] == d.msgs[l]
    requires forall l :: l in d'.msgs && l !in d.msgs ==>
               l.box.Unseen? && Loc(l.ship, Seen, l.id) !in d.msgs && l.ship in Recipients(d, e.me, e.target) && d'.msgs[l].epoch == e.now
    ensures forall ship, id :: LegalChange(d, e, PhaseOf(d, ship, id), PhaseOf(d', ship, id), ship, id)
  {
  }

  lemma AckStep(d: Disk, e: Event, id: string, d': Disk)
    requires Valid(d) && GoodEvent(e) && e.AckEvent?
    requires d' == Ack(d, e.me, id)
    ensures Valid(d')
    ensures forall ship, id :: LegalChange(d, e, PhaseOf(d, ship, id), PhaseOf(d', ship, id), ship, id)
  {
    FsafeOfGood(e.me);
  }

  lemma PruneStep(d: Disk, e: Event, d': Disk)
    requires Valid(d) && GoodEvent(e) && e.PruneEvent?
    requires d' == Prune(d, e.now, e.ttl)
    ensures Valid(d')
    ensures forall ship, id :: LegalChange(d, e, PhaseOf(d, ship, id), PhaseOf(d', ship, id), ship, id)
  {
  }

  /** The store after acking some of a ship's unseen copies: those are seen, all else as before. */
  lemma AckedCopies(d: Disk, me: string, places: set<Loc>)
    requires Valid(d) && places <= UnseenOf(d, me)
    ensures var d1 := AckSome(d, me, places);
            && (forall l: Loc :: l.ship != me ==> (l in d1.msgs <==> l in d.msgs))
            && (forall id :: Loc(me, Unseen, id) in d1.msgs <==> Loc(me, Unseen, id) in d.msgs && Loc(me, Unseen, id) !in places)
            && (forall id :: Loc(me, Seen, id) in d1.msgs <==> Loc(me, Seen, id) in d.msgs || Loc(me, Unseen, id) in places)
            && (forall l :: l in d1.msgs && l in d.msgs ==> d1.msgs[l] == d.msgs[l])
            && (forall l :: l in d1.msgs && l !in d.msgs ==>
                  l.ship == me && l.box.Seen? && Loc(me, Unseen, l.id) in places && d1.msgs[l] == d.msgs[Loc(me, Unseen, l.id)])
  {
    SeenPlacesAre(d, me, places);
  }

  lemma SeenPlacesAre(d: Disk, me: string, places: set<Loc>)
    requires places <= UnseenOf(d, me)
    ensures forall l :: l in SeenPlaces(me, places) <==> l.ship == me && l.box.Seen? && Loc(me, Unseen, l.id) in places
  {
    forall l: Loc | l.ship == me && l.box.Seen? && Loc(me, Unseen, l.id) in places ensures l in SeenPlaces(me, places) {
      assert l == Loc(me, Seen, l.id);
    }
    forall l | l in SeenPlaces(me, places) ensures Loc(me, Unseen, l.id) in places {
      var k :| k in places && l == Loc(me, Seen, k.id);
      assert k == Loc(me, Unseen, l.id);
    }
  }

  lemma AckAllStep(d: Disk, me: string)
    requires Valid(d) && GoodShip(me)
    ensures Valid(AckAll(d, me))
    ensures forall ship, id :: PhaseOf(AckAll(d, me), ship, id) ==
              if ship == me && PhaseOf(d, ship, id).In? then In(Seen, PhaseOf(d, ship, id).rec) else PhaseOf(d, ship, id)
  {
    FsafeOfGood(me);
    AckedCopies(d, me, UnseenOf(d, me));
    assert forall id :: Loc(me, Unseen, id) in d.msgs ==> Loc(me, Unseen, id) in UnseenOf(d, me);
    AckedIsValid(d, me, AckAll(d, me));
    forall ship, id
      ensures PhaseOf(AckAll(d, me), ship, id) ==
                if ship == me && PhaseOf(d, ship, id).In? then In(Seen, PhaseOf(d, ship, id).rec) else PhaseOf(d, ship, id)
    {
      AckAllPhase(d, me, ship, id);
    }
  }

  lemma AckAllPhase(d: Disk, me: string, ship: string, id: string)
    requires Valid(d) && GoodShip(me)
    ensures PhaseOf(AckAll(d, me), ship, id) ==
              if ship == me && PhaseOf(d, ship, id).In? then In(Seen, PhaseOf(d, ship, id).rec) else PhaseOf(d, ship, id)
  {
    FsafeOfGood(me);
    AckedCopies(d, me, UnseenOf(d, me));
    assert Loc(me, Unseen, id) in d.msgs ==> Loc(me, Unseen, id) in UnseenOf(d, me);
    var l := Loc(ship, Seen, id);
    assert l in AckAll(d, me).msgs && l !in d.msgs ==> AckAll(d, me).msgs[l] == d.msgs[Loc(me, Unseen, id)];
  }

  lemma AckedIsValid(d: Disk, me: string, d1: Disk)
    requires Valid(d) && GoodShip(me) && Fsafe(me) == me
    requires d1.status == d.status && d1.seqFile == d.seqFile && d.dirs <= d1.dirs <= d.dirs + {me}
    requires forall id :: Loc(me, Unseen, id) !in d1.msgs
    requires forall l :: l in d1.msgs && l in d.msgs ==> d1.msgs[l] == d.msgs[l]
    requires forall l :: l in d1.msgs && l !in d.msgs ==>
               l.ship == me && l.box.Seen? && Loc(me, Unseen, l.id) in d.msgs && d1.msgs[l] == d.msgs[Loc(me, Unseen, l.id)]
    ensures Valid(d1)
  {
    forall l | l in d1.msgs
      ensures GoodShip(l.ship) && GoodId(l.id) && l.ship in d1.dirs && d1.msgs[l].id == l.id && d1.msgs[l].target == l.ship
    {
      if l !in d.msgs {
        var k := Loc(me, Unseen, l.id);
        assert d.msgs[k].id == k.id && d.msgs[k].target == k.ship;
      }
    }
  }

  /** What the pruning of init leaves is a part of the store, and a removed copy was stale and
      its target, if live, had seen it. */
  lemma {:induction false} InitPruneRemovesSpent(d: Disk, live: set<string>, order: seq<Rec>, now: int, ttl: int)
    requires Valid(d)
    requires forall i :: 0 <= i < |order| ==> IsRecordOf(d, order[i])
    ensures var d' := InitPrune(d, live, order, now, ttl);
            && d'.dirs == d.dirs && d'.status == d.status && d'.seqFile == d.seqFile
            && (forall l :: l in d'.msgs ==> l in d.msgs && d'.msgs[l] == d.msgs[l])
            && (forall l :: l in d.msgs && l !in d'.msgs ==> StaleMsg(d.msgs[l], now, ttl) && (l.ship in live ==> l.box.Seen?))
    decreases |order|
  {
    if order != [] {
      var n := |order| - 1;
      InitPruneRemovesSpent(d, live, order[..n], now, ttl);
      var d1 := InitPrune(d, live, order[..n], now, ttl);
      var m := order[n];
      assert IsRecordOf(d, m);
      forall l | l in d.msgs && l in d1.msgs && l !in Remove(d1, m.id, m.target).msgs
        ensures d.msgs[l] == m
      {
        var k :| k in d.msgs && d.msgs[k] == m;
        SameCopy(d, k, l);
      }
    }
  }

  ghost predicate IsRecordOf(d: Disk, r: Rec) {
    exists l :: l in d.msgs && d.msgs[l] == r
  }

  /** In a valid store a ship's copy of an id is at one place only. */
  lemma SameCopy(d: Disk, k: Loc, l: Loc)
    requires Valid(d) && k in d.msgs && l in d.msgs && k.ship == l.ship && k.id == l.id
    ensures k == l
  {
    assert Loc(k.ship, Unseen, k.id) in d.msgs ==> Loc(k.ship, Seen, k.id) !in d.msgs;
    assert k.box.Unseen? ==> k == Loc(k.ship, Unseen, k.id);
    assert k.box.Seen? ==> k == Loc(k.ship, Seen, k.id);
    assert l.box.Unseen? ==> l == Loc(k.ship, Unseen, k.id);
    assert l.box.Seen? ==> l == Loc(k.ship, Seen, k.id);
  }

  lemma ListedAreRecords(d: Disk, order: seq<Rec>)
    requires IsListing(d, order)
    ensures forall i :: 0 <= i < |order| ==> IsRecordOf(d, order[i])
  {
    forall i | 0 <= i < |order| ensures IsRecordOf(d, order[i]) {
      assert order[i] in multiset(order);
      assert order[i] in Records(d);
    }
  }

  lemma InitLeaves(d: Disk, me: string, now: int, ttl: int, order: seq<Rec>, d': Disk)
    requires Valid(d) && GoodShip(me) && InitStep(d, me, now, ttl, order, d')
    ensures var d1 := AckAll(d, me);
            && Valid(d1) && d'.dirs == d1.dirs && d'.seqFile == d.seqFile
            && d'.status == DropStaleStatus(d, now, ttl).status[me := Status(now, true)]
            && (forall l :: l in d'.msgs ==> l in d1.msgs && d'.msgs[l] == d1.msgs[l])
            && (forall l :: l in d1.msgs && l !in d'.msgs ==>
                  StaleMsg(d1.msgs[l], now, ttl) && (l.ship in Live(d, now, ttl) ==> l.box.Seen?))
  {
    AckAllStep(d, me);
    var d1 := AckAll(d, me);
    var d2 := DropStaleStatus(d1, now, ttl);
    ListedAreRecords(d1, order);
    assert d2.msgs == d1.msgs;
    forall i | 0 <= i < |order| ensures IsRecordOf(d2, order[i]) {
      assert IsRecordOf(d1, order[i]);
    }
    assert Live(d1, now, ttl) == Live(d, now, ttl);
    InitPruneRemovesSpent(d2, Live(d, now, ttl), order, now, ttl);
  }

  lemma InitStepIsLegal(d: Disk, e: Event, order: seq<Rec>, d': Disk)
    requires Valid(d) && GoodEvent(e) && e.InitEvent? && InitStep(d, e.me, e.now, e.ttl, order, d')
    ensures Valid(d')
    ensures forall ship, id :: LegalChange(d, e, PhaseOf(d, ship, id), PhaseOf(d', ship, id), ship, id)
  {
    InitLeaves(d, e.me, e.now, e.ttl, order, d');
    AckAllStep(d, e.me);
    var d1 := AckAll(d, e.me);
    forall ship, id ensures LegalChange(d, e, PhaseOf(d, ship, id), PhaseOf(d', ship, id), ship, id) {
      RemovalIsLegal(d, e, d1, d', ship, id);
    }
  }

  lemma RemovalIsLegal(d: Disk, e: Event, d1: Disk, d': Disk, ship: string, id: string)
    requires e.InitEvent?
    requires PhaseOf(d1, ship, id) ==
               if ship == e.me && PhaseOf(d, ship, id).In? then In(Seen, PhaseOf(d, ship, id).rec) else PhaseOf(d, ship, id)
    requires forall l :: l in d'.msgs ==> l in d1.msgs && d'.msgs[l] == d1.msgs[l]
    requires forall l :: l in d1.msgs && l !in d'.msgs ==>
               StaleMsg(d1.msgs[l], e.now, e.ttl) && (l.ship in Live(d, e.now, e.ttl) ==> l.box.Seen?)
    requires Loc(ship, Unseen, id) in d1.msgs ==> Loc(ship, Seen, id) !in d1.msgs
    ensures LegalChange(d, e, PhaseOf(d, ship, id), PhaseOf(d', ship, id), ship, id)
  {
    var p, q := PhaseOf(d1, ship, id), PhaseOf(d', ship, id);
    assert q == p || (q.Absent? && p.In? && StaleMsg(p.rec, e.now, e.ttl) && (ship in Live(d, e.now, e.ttl) ==> p.box.Seen?));
  }

  lemma AnyPostStep(d: Disk, e: Event, d': Disk)
    requires Valid(d) && GoodEvent(e) && e.PostEvent? && Step(d, e, d') && Room(d)
    ensures Valid(d')
    ensures forall ship, id :: LegalChange(d, e, PhaseOf(d, ship, id), PhaseOf(d', ship, id), ship, id)
  {
    var u :| 0 <= u < TWO64 && IsHighest(d, u) && d' == Post(d, e.me, e.from, e.target, e.text, e.now, u);
    PostStep(d, e, u, d');
  }

  lemma AnyInitStep(d: Disk, e: Event, d': Disk)
    requires Valid(d) && GoodEvent(e) && e.InitEvent? && Step(d, e, d')
    ensures Valid(d')
    ensures forall ship, id :: LegalChange(d, e, PhaseOf(d, ship, id), PhaseOf(d', ship, id), ship, id)
  {
    var order :| InitStep(d, e.me, e.now, e.ttl, order, d');
    InitStepIsLegal(d, e, order, d');
  }

  /** Every command keeps the store valid and moves each copy only in the ways allowed. */
  lemma StepIsLegal(d: Disk, e: Event, d': Disk)
    requires Valid(d) && GoodEvent(e) && Step(d, e, d') && (e.PostEvent? ==> Room(d))
    ensures Valid(d')
    ensures forall ship, id :: LegalChange(d, e, PhaseOf(d, ship, id), PhaseOf(d', ship, id), ship, id)
  {
    match e
    case PostEvent(me, from, target, text, now) =>
      AnyPostStep(d, e, d');
    case AckEvent(me, id) =>
      if Safe(id).Some? {
        AckStep(d, e, Safe(id).value, d');
      }
    case InitEvent(me, now, ttl) =>
      AnyInitStep(d, e, d');
    case PruneEvent(_, _) => PruneStep(d, e, d');
    case StatusEvent(_, _) =>
    case SeqEvent(_) =>
  }

  lemma StepKeepsValid(d: Disk, e: Event, d': Disk)
    requires Valid(d) && GoodEvent(e) && Step(d, e, d') && (e.PostEvent? ==> Room(d))
    ensures Valid(d')
  {
    StepIsLegal(d, e, d');
  }

  // ---------- whole runs ----------

  /** Event i takes the store from ds[i] to ds[i + 1]; a post has room for its id. */
  ghost predicate Happens(ds: seq<Disk>, es: seq<Event>, i: nat)
    requires |ds| == |es| + 1 && i < |es|
  {
    GoodEvent(es[i]) && Step(ds[i], es[i], ds[i + 1]) && (es[i].PostEvent? ==> Room(ds[i]))
  }

  ghost predicate IsRun(ds: seq<Disk>, es: seq<Event>) {
    && |ds| == |es| + 1
    && Valid(ds[0])
    && forall i {:trigger Happens(ds, es, i)} :: 0 <= i < |es| ==> Happens(ds, es, i)
  }

  lemma HappeningKeepsValid(ds: seq<Disk>, es: seq<Event>, i: nat)
    requires |ds| == |es| + 1 && i < |es| && Happens(ds, es, i) && Valid(ds[i])
    ensures Valid(ds[i + 1])
  {
    StepKeepsValid(ds[i], es[i], ds[i + 1]);
  }

  lemma {:induction false} RunsStayValid(ds: seq<Disk>, es: seq<Event>, i: nat)
    requires IsRun(ds, es) && i <= |es|
    ensures Valid(ds[i])
  {
    if i > 0 {
      RunsStayValid(ds, es, i - 1);
      HappeningKeepsValid(ds, es, i - 1);
    }
  }

  /** At event k, ship's copy of id was removed for cause. */
  ghost predicate RemovedAt(ds: seq<Disk>, es: seq<Event>, k: nat, ship: string, id: string, r: Rec)
    requires |ds| == |es| + 1 && k < |es|
  {
    var e := es[k];
    && (e.PruneEvent? || e.InitEvent?) && StaleMsg(r, e.now, e.ttl)
    && PhaseOf(ds[k], ship, id).In? && PhaseOf(ds[k], ship, id).rec == r
    && (PhaseOf(ds[k], ship, id).box.Seen? || ship !in Live(ds[k], e.now, e.ttl) || (e.InitEvent? && e.me == ship))
  }

  /** Directives are neither lost nor changed: a copy that is there at point i is, at any later
      point j, still there with the same record, and still seen if it was seen; or some prune
      or init in between removed it when it was stale and either seen or its ship not live. */
  lemma {:induction false} NeverLost(ds: seq<Disk>, es: seq<Event>, i: nat, j: nat, ship: string, id: string)
    requires IsRun(ds, es) && i <= j <= |es|
    requires PhaseOf(ds[i], ship, id).In?
    ensures var p, q := PhaseOf(ds[i], ship, id), PhaseOf(ds[j], ship, id);
            || (q.In? && q.rec == p.rec && (p.box.Seen? ==> q.box.Seen?))
            || exists k :: i <= k < j && RemovedAt(ds, es, k, ship, id, p.rec)
    decreases j - i
  {
    if i < j {
      var k := j - 1;
      NeverLost(ds, es, i, k, ship, id);
      RunsStayValid(ds, es, k);
      assert Happens(ds, es, k);
      StepIsLegal(ds[k], es[k], ds[j]);
      var p, q := PhaseOf(ds[i], ship, id), PhaseOf(ds[k], ship, id);
      assert LegalChange(ds[k], es[k], q, PhaseOf(ds[j], ship, id), ship, id);
      if q.In? && q.rec == p.rec && (p.box.Seen? ==> q.box.Seen?) && !PhaseOf(ds[j], ship, id).In? {
        assert RemovedAt(ds, es, k, ship, id, p.rec);
      }
    }
  }

  /** ... nor doubled: at no point does a ship have an id both unseen and seen; and acking is
      private: an event of another ship never moves it to seen. */
  lemma NeverDoubledNorAckedByOthers(ds: seq<Disk>, es: seq<Event>, i: nat, ship: string, id: string)
    requires IsRun(ds, es) && i < |es|
    ensures !(Loc(ship, Unseen, id) in ds[i].msgs && Loc(ship, Seen, id) in ds[i].msgs)
    ensures PhaseOf(ds[i], ship, id).In? && PhaseOf(ds[i], ship, id).box.Unseen?
            && PhaseOf(ds[i + 1], ship, id).In? && PhaseOf(ds[i + 1], ship, id).box.Seen? ==>
              (es[i].AckEvent? || es[i].InitEvent?) && es[i].me == ship
  {
    RunsStayValid(ds, es, i);
    assert Happens(ds, es, i);
    StepIsLegal(ds[i], es[i], ds[i + 1]);
    assert LegalChange(ds[i], es[i], PhaseOf(ds[i], ship, id), PhaseOf(ds[i + 1], ship, id), ship, id);
  }

  /** The number issued by the post at point i. */
  ghost predicate Issued(ds: seq<Disk>, es: seq<Event>, i: nat, n: int)
    requires |ds| == |es| + 1 && i < |es|
  {
    es[i].PostEvent? && ds[i + 1].seqFile == Number(n)
  }

  lemma {:induction false} CounterOnlyGrows(ds: seq<Disk>, es: seq<Event>, i: nat, j: nat)
    requires IsRun(ds, es) && i <= j <= |es|
    requires forall k :: i <= k < j ==> !es[k].SeqEvent?
    ensures SeqValue(ds[j].seqFile) >= SeqValue(ds[i].seqFile)
    decreases j - i
  {
    if i < j {
      CounterOnlyGrows(ds, es, i, j - 1);
      CounterStep(ds, es, j - 1);
    }
  }

  lemma CounterStep(ds: seq<Disk>, es: seq<Event>, k: nat)
    requires IsRun(ds, es) && k < |es| && !es[k].SeqEvent?
    ensures SeqValue(ds[k + 1].seqFile) >= SeqValue(ds[k].seqFile)
    ensures es[k].PostEvent? ==> SeqValue(ds[k + 1].seqFile) > SeqValue(ds[k].seqFile)
    ensures es[k].PostEvent? ==> forall l :: l in ds[k].msgs ==> ParseIdNum(l.id) < SeqValue(ds[k + 1].seqFile)
  {
    RunsStayValid(ds, es, k);
    assert Happens(ds, es, k);
    var d, e, d' := ds[k], es[k], ds[k + 1];
    match e
    case PostEvent(me, from, target, text, now) =>
      var u :| 0 <= u < TWO64 && IsHighest(d, u) && d' == Post(d, me, from, target, text, now, u);
      NextIdIsNew(d, u);
    case InitEvent(me, now, ttl) =>
      var order :| InitStep(d, me, now, ttl, order, d');
      InitLeaves(d, me, now, ttl, order, d');
    case _ =>
  }

  /** As long as the counter file survives, issued ids increase for ever, prunes or not. */
  lemma IdsIncrease(ds: seq<Disk>, es: seq<Event>, i: nat, j: nat, m: int, n: int)
    requires IsRun(ds, es) && i < j < |es| && Issued(ds, es, i, m) && Issued(ds, es, j, n)
    requires forall k :: i < k < j ==> !es[k].SeqEvent?
    ensures n > m
  {
    CounterOnlyGrows(ds, es, i + 1, j);
    CounterStep(ds, es, j);
  }

  /** Whatever happened to the counter file before, an issued id is above every id then in the
      store. */
  lemma IssuedIdIsHighest(ds: seq<Disk>, es: seq<Event>, j: nat, n: int)
    requires IsRun(ds, es) && j < |es| && Issued(ds, es, j, n)
    ensures forall l :: l in ds[j].msgs ==> ParseIdNum(l.id) < n
  {
    CounterStep(ds, es, j);
  }

  /** At the top of int64 the guarantees end: with the highest possible id in the store, two
      posts get the same id, and the second overwrites the first. */
  lemma WrapLosesDirective(d: Disk, ship: string, a: string, b: string, now: int)
    requires Valid(d) && GoodShip(ship)
    requires IsHighest(d, MAX_INT64)
    ensures var l := Loc(ship, Unseen, FormatId(-TWO63));
            var d1 := Post(d, ship, ship, ship, a, now, MAX_INT64);
            var d2 := Post(d1, ship, ship, ship, b, now, MAX_INT64);
            && Step(d, PostEvent(ship, ship, ship, a, now), d1) && Step(d1, PostEvent(ship, ship, ship, b, now), d2)
            && d1.msgs == d.msgs[l := Rec(FormatId(-TWO63), now, ship, ship, a)]
            && d2.msgs == d.msgs[l := Rec(FormatId(-TWO63), now, ship, ship, b)]
  {
    PostAtTop(d, ship, a, now);
    var d1 := Post(d, ship, ship, ship, a, now, MAX_INT64);
    WrappedIdIsLow(d, ship, a, now);
    PostAtTop(d1, ship, b, now);
    var l := Loc(ship, Unseen, FormatId(-TWO63));
    UpdateTwice(d.msgs, l, Rec(FormatId(-TWO63), now, ship, ship, a), Rec(FormatId(-TWO63), now, ship, ship, b));
  }

  lemma UpdateTwice(m: map<Loc, Rec>, l: Loc, a: Rec, b: Rec)
    ensures m[l := a][l := b] == m[l := b]
  {
  }

  /** ... and the first post leaves the highest id as it was, so the second repeats it. */
  lemma WrappedIdIsLow(d: Disk, ship: string, text: string, now: int)
    requires Valid(d) && GoodShip(ship) && IsHighest(d, MAX_INT64)
    ensures IsHighest(Post(d, ship, ship, ship, text, now, MAX_INT64), MAX_INT64)
  {
    PostAtTop(d, ship, text, now);
    ParseInvertsFormat(-TWO63);
    var l0 :| l0 in d.msgs && ParseIdNum(l0.id) == MAX_INT64;
    assert l0 in Post(d, ship, ship, ship, text, now, MAX_INT64).msgs;
  }

  /** A corrupt counter file is enough: on an empty store whose counter is about to reach the top, the
      first post takes the highest id, and of the next two directives the first is lost. */
  lemma CorruptCounterLosesDirective(ship: string, first: string, a: string, b: string, now: int)
    requires GoodShip(ship)
    ensures var empty := Disk(map[], {}, map[], NoNumber);
            var d0 := empty.(seqFile := Number(MAX_INT64 - 1));
            var d1 := Post(d0, ship, ship, ship, first, now, 0);
            var d2 := Post(d1, ship, ship, ship, a, now, MAX_INT64);
            var d3 := Post(d2, ship, ship, ship, b, now, MAX_INT64);
            var top, l := Loc(ship, Unseen, FormatId(MAX_INT64)), Loc(ship, Unseen, FormatId(-TWO63));
            && GoodEvent(SeqEvent(d0.seqFile)) && Step(empty, SeqEvent(d0.seqFile), d0)
            && Step(d0, PostEvent(ship, ship, ship, first, now), d1)
            && Step(d1, PostEvent(ship, ship, ship, a, now), d2) && Step(d2, PostEvent(ship, ship, ship, b, now), d3)
            && d3.msgs == map[top := Rec(top.id, now, ship, ship, first), l := Rec(l.id, now, ship, ship, b)]
  {
    var d0 := Disk(map[], {}, map[], Number(MAX_INT64 - 1));
    var d1 := Post(d0, ship, ship, ship, first, now, 0);
    var top := Loc(ship, Unseen, FormatId(MAX_INT64));
    var e := PostEvent(ship, ship, ship, first, now);
    assert IsHighest(d0, 0) && Step(d0, e, d1);
    StepKeepsValid(d0, e, d1);
    WrapAtTop(MAX_INT64);
    PostToOne(d0.(seqFile := Number(MAX_INT64)), ship, Rec(top.id, now, ship, ship, first));
    assert d1.msgs == map[top := Rec(top.id, now, ship, ship, first)];
    ParseInvertsFormat(MAX_INT64);
    assert top in d1.msgs && IsHighest(d1, MAX_INT64);
    WrapLosesDirective(d1, ship, a, b, now);
  }

  lemma PostAtTop(d: Disk, ship: string, text: string, now: int)
    requires GoodShip(ship) && (d.seqFile.Number? ==> -TWO63 <= d.seqFile.n < TWO63)
    ensures var d1 := Post(d, ship, ship, ship, text, now, MAX_INT64);
            && d1.msgs == d.msgs[Loc(ship, Unseen, FormatId(-TWO63)) := Rec(FormatId(-TWO63), now, ship, ship, text)]
            && d1.seqFile == Number(-TWO63)
  {
    WrapAtTop(MAX_INT64 + 1);
    assert NextNum(d.seqFile, MAX_INT64) == -TWO63;
    PostToOne(d.(seqFile := Number(-TWO63)), ship, Rec(FormatId(-TWO63), now, ship, ship, text));
  }

  lemma PostToOne(d: Disk, ship: string, r: Rec)
    ensures PostCopies(d, {ship}, r).msgs == d.msgs[Loc(ship, Unseen, r.id) := r.(target := ship)]
  {
    var l := Loc(ship, Unseen, r.id);
    var ships := {ship};
    var new_ := set s | s in ships :: Loc(s, Unseen, r.id);
    assert forall k :: k in new_ <==> k == l;
  }
}
