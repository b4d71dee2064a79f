/** The directive store of the comms bus as a value: what is on disk between two critical
    sections, and what each command does to it (internal/comms). One copy of a directive per
    recipient, in that recipient's unseen/ or seen/ directory. */
module Disk {
  import opened Text
  import opened Decimal
  import opened Names

  datatype Box = Unseen | Seen

  /** A message file: msgs/<ship>/<box>/<id>.json */
  datatype Loc = Loc(ship: string, box: Box, id: string)

  datatype Rec = Rec(id: string, epoch: int, from: string, target: string, text: string)

  datatype Status = Status(epoch: int, idle: bool)

  /** The counter file: absent or unreadable, or a number. */
  datatype SeqFile = NoNumber | Number(n: int)

  datatype Disk = Disk(msgs: map<Loc, Rec>, dirs: set<string>, status: map<string, Status>, seqFile: SeqFile)

  const ALL := "all"

  /** A ship whose directory bears its own name and is visible. */
  predicate GoodShip(s: string) {
    s != "" && s[0] != '.' && s != ALL && forall i :: 0 <= i < |s| ==> FileChar(s[i])
  }

  /** A message id as nextID prints it. */
  predicate GoodId(id: string) {
    |id| >= 2 && id[0] == 'm' && forall i :: 1 <= i < |id| ==> IsDigit(id[i]) || id[i] == '-'
  }

  /** What every command keeps: paths and records agree, and nobody has a directive twice. */
  ghost predicate Valid(d: Disk) {
    && (forall l :: l in d.msgs ==> GoodShip(l.ship) && GoodId(l.id) && l.ship in d.dirs)
    && (forall l :: l in d.msgs ==> d.msgs[l].id == l.id && d.msgs[l].target == l.ship)
    && (forall ship, id :: Loc(ship, Unseen, id) in d.msgs ==> Loc(ship, Seen, id) !in d.msgs)
    && (forall s :: s in d.status ==> GoodShip(s))
    && (forall s :: s in d.dirs ==> s != "" && Fsafe(s) == s)
    && (d.seqFile.Number? ==> -TWO63 <= d.seqFile.n < TWO63)
  }

  // ---------- reading ----------

  predicate StaleMsg(r: Rec, now: int, ttl: int) {
    now - r.epoch >= ttl
  }

  predicate StaleStatus(s: Status, now: int, ttl: int) {
    !s.idle && now - s.epoch >= ttl
  }

  function Live(d: Disk, now: int, ttl: int): set<string> {
    set a | a in d.status && !StaleStatus(d.status[a], now, ttl)
  }

  predicate Acked(d: Disk, id: string, agent: string) {
    Loc(agent, Seen, id) in d.msgs
  }

  /** knownShips: every visible message directory and every agent on the board. */
  function KnownShips(d: Disk): set<string> {
    set s | s in d.dirs + d.status.Keys && s != "" && !HasPrefix(s, ".") && s != ALL
  }

  function Recipients(d: Disk, me: string, target: string): set<string> {
    if target == ALL then KnownShips(d) + {me} else {target}
  }

  /** Is u the highest number among the store's ids (0 if there are none)? */
  ghost predicate IsHighest(d: Disk, u: nat) {
    && (forall l :: l in d.msgs ==> ParseIdNum(l.id) <= u)
    && (u == 0 || exists l :: l in d.msgs && ParseIdNum(l.id) == u)
  }

  // ---------- writing ----------

  function SeqValue(s: SeqFile): int {
    if s.Number? then s.n else 0
  }

  /** nextID's arithmetic: the counter, raised to the highest id in use, plus one, in int64. */
  function NextNum(s: SeqFile, highest: nat): int
    requires highest < TWO64
  {
    var hi := ToInt(highest);
    Wrap((if hi > SeqValue(s) then hi else SeqValue(s)) + 1)
  }

  /** postAs: one copy for each recipient. */
  function PostCopies(d: Disk, rcpts: set<string>, r: Rec): Disk {
    d.(msgs := d.msgs + (map l | l in (set s | s in rcpts :: Loc(s, Unseen, r.id)) :: r.(target := l.ship)),
       dirs := d.dirs + rcpts)
  }

  function Post(d: Disk, me: string, from: string, target: string, text: string, now: int, highest: nat): Disk
    requires highest < TWO64
  {
    var n := NextNum(d.seqFile, highest);
    PostCopies(d.(seqFile := Number(n)), Recipients(d, me, target), Rec(FormatId(n), now, from, target, text))
  }

  /** ackMessage, after its path check: the ship's unseen copy moves to seen. */
  function Ack(d: Disk, me: string, id: string): Disk {
    var src, dst := Loc(me, Unseen, id), Loc(me, Seen, id);
    var m := if src in d.msgs then (d.msgs - {src})[dst := d.msgs[src]] else d.msgs;
    d.(msgs := m, dirs := d.dirs + {me})
  }

  /** removeMsgCopies */
  function Remove(d: Disk, id: string, target: string): Disk {
    d.(msgs := d.msgs - {Loc(target, Unseen, id), Loc(target, Seen, id)})
  }

  function DropStaleStatus(d: Disk, now: int, ttl: int): Disk {
    d.(status := map a | a in d.status && !StaleStatus(d.status[a], now, ttl) :: d.status[a])
  }

  /** DoPrune drops a stale directive unless its target is live and has not acked it. */
  predicate Spent(d: Disk, l: Loc, now: int, ttl: int)
    requires l in d.msgs
  {
    StaleMsg(d.msgs[l], now, ttl) && (l.ship in Live(d, now, ttl) ==> l.box.Seen?)
  }

  function Prune(d: Disk, now: int, ttl: int): Disk {
    DropStaleStatus(d, now, ttl).(msgs := map l | l in d.msgs && !Spent(d, l, now, ttl) :: d.msgs[l])
  }

  function UnseenOf(d: Disk, me: string): set<Loc> {
    set l | l in d.msgs && l.ship == me && l.box.Unseen?
  }

  /** Where copies go when their ship acks them. */
  function SeenPlaces(me: string, places: set<Loc>): set<Loc> {
    set k | k in places :: Loc(me, Seen, k.id)
  }

  function AckSome(d: Disk, me: string, places: set<Loc>): Disk {
    d.(msgs := (d.msgs - places) + (map l | l in SeenPlaces(me, places) && Loc(me, Unseen, l.id) in d.msgs :: d.msgs[Loc(me, Unseen, l.id)]),
       dirs := if places == {} then d.dirs else d.dirs + {me})
  }

  /** DoInit's first stage: everything unseen of this ship is acked. */
  function AckAll(d: Disk, me: string): Disk {
    AckSome(d, me, UnseenOf(d, me))
  }

  /** DoInit's second stage, over the records in the order they were listed: a stale one goes
      when every live agent has a seen copy at that moment. */
  function InitPrune(d: Disk, live: set<string>, order: seq<Rec>, now: int, ttl: int): Disk
    decreases |order|
  {
    if order == [] then d
    else
      var d' := InitPrune(d, live, order[..|order| - 1], now, ttl);
      var m := order[|order| - 1];
      if StaleMsg(m, now, ttl) && (forall a | a in live :: Acked(d', m.id, a)) then Remove(d', m.id, m.target) else d'
  }

  /** A listing of the store: every record once, newest id first, ties in any order. */
  ghost predicate IsListing(d: Disk, order: seq<Rec>) {
    && multiset(order) == Records(d)
    && forall i, j :: 0 <= i < j < |order| ==> ParseIdNum(order[i].id) >= ParseIdNum(order[j].id)
  }

  /** All records, as a multiset. In a valid store no two are equal. */
  ghost function Records(d: Disk): multiset<Rec> {
    multiset(set l | l in d.msgs :: d.msgs[l])
  }

  ghost predicate InitStep(d: Disk, me: string, now: int, ttl: int, order: seq<Rec>, d': Disk) {
    var d1 := AckAll(d, me);
    && IsListing(d1, order)
    && d' == InitPrune(DropStaleStatus(d1, now, ttl), Live(d1, now, ttl), order, now, ttl)
             .(status := DropStaleStatus(d1, now, ttl).status[me := Status(now, true)])
  }
}
