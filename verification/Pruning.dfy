/** What the two prunings remove, exactly (internal/comms/commands.go: DoPrune and the second
    stage of DoInit). */
module Pruning {
  import opened Text
  import opened Decimal
  import opened Names
  import opened Disk
  import opened Delivery

  /** The copy listed at position i goes: it is stale, every live agent had a seen copy of its
      id, and no earlier stale copy of that id belonged to a live agent. */
  ghost predicate Goes(d: Disk, live: set<string>, order: seq<Rec>, i: nat, now: int, ttl: int)
    requires i < |order|
  {
    && now - order[i].epoch >= ttl
    && (forall a :: a in live ==> Acked(d, order[i].id, a))
    && (forall j :: 0 <= j < i ==> !Blocks(live, order, j, order[i].id, now, ttl))
  }

  predicate Blocks(live: set<string>, order: seq<Rec>, j: nat, id: string, now: int, ttl: int)
    requires j < |order|
  {
    order[j].id == id && order[j].target in live && now - order[j].epoch >= ttl
  }

  ghost predicate WentBefore(d: Disk, live: set<string>, order: seq<Rec>, n: nat, l: Loc, now: int, ttl: int)
    requires n <= |order| && l in d.msgs
  {
    exists i :: 0 <= i < n && order[i] == d.msgs[l] && Goes(d, live, order, i, now, ttl)
  }

  /** DoInit's second stage, exactly: a copy is removed iff it goes at one of its positions. */
  lemma {:induction false} InitPruneExact(d: Disk, live: set<string>, order: seq<Rec>, n: nat, now: int, ttl: int)
    requires Valid(d) && n <= |order|
    requires forall i :: 0 <= i < |order| ==> IsRecordOf(d, order[i])
    ensures forall l :: l in d.msgs ==>
              (l !in InitPrune(d, live, order[..n], now, ttl).msgs <==> WentBefore(d, live, order, n, l, now, ttl))
    decreases n
  {
    if n > 0 {
      var k := n - 1;
      InitPruneExact(d, live, order, k, now, ttl);
      var d1 := InitPrune(d, live, order[..k], now, ttl);
      assert order[..n][..k] == order[..k];
      var m := order[k];
      InitPruneRemovesSpent(d, live, order[..k], now, ttl);
      RemovableIffGoes(d, live, order, k, d1, now, ttl);
      var d2 := InitPrune(d, live, order[..n], now, ttl);
      assert d2 == if Goes(d, live, order, k, now, ttl) then Remove(d1, m.id, m.target) else d1;
      forall l | l in d.msgs ensures l !in d2.msgs <==> WentBefore(d, live, order, n, l, now, ttl) {
        WentOneMore(d, live, order, k, l, now, ttl);
        RemovesItsOwn(d, d1, m, l);
      }
    }
  }

  lemma WentOneMore(d: Disk, live: set<string>, order: seq<Rec>, k: nat, l: Loc, now: int, ttl: int)
    requires k < |order| && l in d.msgs
    ensures WentBefore(d, live, order, k + 1, l, now, ttl) <==>
              WentBefore(d, live, order, k, l, now, ttl) || (order[k] == d.msgs[l] && Goes(d, live, order, k, now, ttl))
  {
  }

  /** Removing a record's copies removes its own place and nothing else. */
  lemma RemovesItsOwn(d: Disk, d1: Disk, m: Rec, l: Loc)
    requires Valid(d) && IsRecordOf(d, m) && l in d.msgs
    ensures l !in Remove(d1, m.id, m.target).msgs <==> l !in d1.msgs || d.msgs[l] == m
  {
    var own :| own in d.msgs && d.msgs[own] == m;
    if l.ship == m.target && l.id == m.id {
      SameCopy(d, own, l);
    }
    if l.box.Unseen? {
      assert l == Loc(l.ship, Unseen, l.id);
    } else {
      assert l == Loc(l.ship, Seen, l.id);
    }
  }

  lemma RemovableIffGoes(d: Disk, live: set<string>, order: seq<Rec>, k: nat, d1: Disk, now: int, ttl: int)
    requires Valid(d) && k < |order|
    requires forall i :: 0 <= i < |order| ==> IsRecordOf(d, order[i])
    requires forall l :: l in d1.msgs ==> l in d.msgs && d1.msgs[l] == d.msgs[l]
    requires forall l :: l in d.msgs ==> (l !in d1.msgs <==> WentBefore(d, live, order, k, l, now, ttl))
    ensures (StaleMsg(order[k], now, ttl) && forall a :: a in live ==> Acked(d1, order[k].id, a)) <==> Goes(d, live, order, k, now, ttl)
  {
    var id := order[k].id;
    if Goes(d, live, order, k, now, ttl) {
      forall a | a in live ensures Acked(d1, id, a) {
        var l := Loc(a, Seen, id);
        assert Acked(d, id, a);
        if l !in d1.msgs {
          var i :| 0 <= i < k && order[i] == d.msgs[l] && Goes(d, live, order, i, now, ttl);
          assert Blocks(live, order, i, id, now, ttl);
        }
      }
    } else if StaleMsg(order[k], now, ttl) && forall a :: a in live ==> Acked(d1, id, a) {
      forall a | a in live ensures Acked(d, id, a) {
        assert Acked(d1, id, a);
      }
      var j0 :| 0 <= j0 < k && Blocks(live, order, j0, id, now, ttl);
      var j := FirstBlocker(live, order, j0, id, now, ttl);
      assert Goes(d, live, order, j, now, ttl);
      var l := Loc(order[j].target, Seen, id);
      assert Acked(d1, id, order[j].target);
      assert IsRecordOf(d, order[j]);
      var own :| own in d.msgs && d.msgs[own] == order[j];
      SameCopy(d, own, l);
    }
  }

  lemma FirstBlocker(live: set<string>, order: seq<Rec>, j0: nat, id: string, now: int, ttl: int) returns (j: nat)
    requires j0 < |order| && Blocks(live, order, j0, id, now, ttl)
    ensures j <= j0 && Blocks(live, order, j, id, now, ttl)
    ensures forall i :: 0 <= i < j ==> !Blocks(live, order, i, id, now, ttl)
  {
    j := 0;
    while !Blocks(live, order, j, id, now, ttl)
      invariant j <= j0
      invariant forall i :: 0 <= i < j ==> !Blocks(live, order, i, id, now, ttl)
      decreases j0 - j
    {
      j := j + 1;
    }
  }

  lemma PassKeepsOneOfTwo(d: Disk, live: set<string>, order: seq<Rec>, id: string, a: string, b: string, now: int, ttl: int)
    requires Valid(d) && IsListing(d, order)
    requires a in live && b in live && a != b
    requires Loc(a, Seen, id) in d.msgs && Loc(b, Seen, id) in d.msgs
    ensures var d' := InitPrune(d, live, order, now, ttl);
            Loc(a, Seen, id) in d'.msgs || Loc(b, Seen, id) in d'.msgs
  {
    ListedAreRecords(d, order);
    InitPruneExact(d, live, order, |order|, now, ttl);
    assert order[..|order|] == order;
    var la, lb := Loc(a, Seen, id), Loc(b, Seen, id);
    if WentBefore(d, live, order, |order|, la, now, ttl) && WentBefore(d, live, order, |order|, lb, now, ttl) {
      var i :| 0 <= i < |order| && order[i] == d.msgs[la] && Goes(d, live, order, i, now, ttl);
      var j :| 0 <= j < |order| && order[j] == d.msgs[lb] && Goes(d, live, order, j, now, ttl);
      if i < j {
        assert Blocks(live, order, i, id, now, ttl);
      } else {
        assert i != j;
        assert Blocks(live, order, j, id, now, ttl);
      }
    }
  }

  /** A ship is live while its status is idle or younger than the time to live. */
  ghost predicate IsLive(d: Disk, ship: string, now: int, ttl: int) {
    ship in d.status && (d.status[ship].idle || now - d.status[ship].epoch < ttl)
  }

  lemma LiveIff(d: Disk, ship: string, now: int, ttl: int)
    ensures ship in Live(d, now, ttl) <==> IsLive(d, ship, now, ttl)
  {
  }

  /** ... while prune removes exactly the directives that are old, unless their ship is live and has not
      seen them, and exactly the status records of ships that are not live. */
  lemma PruneExact(d: Disk, now: int, ttl: int)
    requires Valid(d)
    ensures var d' := Prune(d, now, ttl);
            && (forall l :: l in d'.msgs <==>
                  l in d.msgs && (now - d.msgs[l].epoch < ttl || (IsLive(d, l.ship, now, ttl) && Loc(l.ship, Seen, l.id) !in d.msgs)))
            && (forall l :: l in d'.msgs ==> d'.msgs[l] == d.msgs[l])
            && (forall a :: a in d'.status <==> IsLive(d, a, now, ttl))
            && (forall a :: a in d'.status ==> d'.status[a] == d.status[a])
            && d'.dirs == d.dirs && d'.seqFile == d.seqFile
  {
    forall l | l in d.msgs
      ensures l in Prune(d, now, ttl).msgs <==> now - d.msgs[l].epoch < ttl || (IsLive(d, l.ship, now, ttl) && Loc(l.ship, Seen, l.id) !in d.msgs)
    {
      LiveIff(d, l.ship, now, ttl);
      if l.box.Unseen? {
        assert l == Loc(l.ship, Unseen, l.id);
      } else {
        assert l == Loc(l.ship, Seen, l.id);
      }
    }
  }

  lemma PassSparesTargeted(d: Disk, live: set<string>, order: seq<Rec>, l: Loc, other: string, now: int, ttl: int)
    requires Valid(d) && IsListing(d, order) && l in d.msgs
    requires other in live && other != l.ship && Loc(other, Seen, l.id) !in d.msgs
    ensures l in InitPrune(d, live, order, now, ttl).msgs
  {
    ListedAreRecords(d, order);
    InitPruneExact(d, live, order, |order|, now, ttl);
    assert order[..|order|] == order;
    assert !Acked(d, l.id, other);
  }

  /** Init never clears a broadcast that two live ships have seen: whatever order the records are
      listed in, one of the two copies stays, however old it is. */
  lemma InitKeepsOneOfTwo(d: Disk, me: string, now: int, ttl: int, d': Disk, id: string, a: string, b: string)
    requires Valid(d) && GoodShip(me) && Step(d, InitEvent(me, now, ttl), d')
    requires IsLive(d, a, now, ttl) && IsLive(d, b, now, ttl) && a != b
    requires Loc(a, Seen, id) in d.msgs && Loc(b, Seen, id) in d.msgs
    ensures Loc(a, Seen, id) in d'.msgs || Loc(b, Seen, id) in d'.msgs
  {
    var order :| InitStep(d, me, now, ttl, order, d');
    var d1 := AckAll(d, me);
    AckAllStep(d, me);
    AckedCopies(d, me, UnseenOf(d, me));
    assert Loc(a, Seen, id) in d1.msgs && Loc(b, Seen, id) in d1.msgs by {
      SeenStays(d, me, a, id);
      SeenStays(d, me, b, id);
    }
    PassKeepsOneOfTwo(DropStaleStatus(d1, now, ttl), Live(d1, now, ttl), order, id, a, b, now, ttl);
  }

  /** Init spares a targeted directive as long as another ship is live: only its recipient can have a
      seen copy of it. */
  lemma InitSparesTargeted(d: Disk, me: string, now: int, ttl: int, d': Disk, ship: string, id: string, other: string)
    requires Valid(d) && GoodShip(me) && Step(d, InitEvent(me, now, ttl), d')
    requires PhaseOf(d, ship, id).In? && IsLive(d, other, now, ttl) && PhaseOf(d, other, id).Absent?
    ensures PhaseOf(d', ship, id).In?
  {
    var order :| InitStep(d, me, now, ttl, order, d');
    var d1 := AckAll(d, me);
    AckAllStep(d, me);
    assert PhaseOf(d1, other, id).Absent? && PhaseOf(d1, ship, id).In?;
    var l := Loc(ship, if Loc(ship, Unseen, id) in d1.msgs then Unseen else Seen, id);
    PassSparesTargeted(DropStaleStatus(d1, now, ttl), Live(d1, now, ttl), order, l, other, now, ttl);
  }

  lemma SeenStays(d: Disk, me: string, ship: string, id: string)
    requires Valid(d) && GoodShip(me) && Loc(ship, Seen, id) in d.msgs
    ensures Loc(ship, Seen, id) in AckAll(d, me).msgs
  {
    AckedCopies(d, me, UnseenOf(d, me));
  }

  /** After init a ship's inbox is empty: what it had it has seen, and only what is old may be gone. */
  lemma InitAcksInbox(d: Disk, me: string, now: int, ttl: int, d': Disk, id: string)
    requires Valid(d) && GoodShip(me) && Step(d, InitEvent(me, now, ttl), d')
    ensures PhaseOf(d, me, id).Absent? ==> PhaseOf(d', me, id).Absent?
    ensures PhaseOf(d, me, id).In? ==>
              var r := PhaseOf(d, me, id).rec;
              PhaseOf(d', me, id) == In(Seen, r) || (PhaseOf(d', me, id).Absent? && now - r.epoch >= ttl)
  {
    var order :| InitStep(d, me, now, ttl, order, d');
    InitLeaves(d, me, now, ttl, order, d');
    AckAllStep(d, me);
    OwnPhase(AckAll(d, me), d', me, id, now, ttl);
  }

  /** It is idle on the board from now on, and the records of ships that are not live are gone. */
  lemma InitSweepsBoard(d: Disk, me: string, now: int, ttl: int, d': Disk, a: string)
    requires Valid(d) && GoodShip(me) && Step(d, InitEvent(me, now, ttl), d')
    ensures a in d'.status <==> a == me || IsLive(d, a, now, ttl)
    ensures a in d'.status ==> d'.status[a] == if a == me then Status(now, true) else d.status[a]
    ensures d'.seqFile == d.seqFile
  {
    var order :| InitStep(d, me, now, ttl, order, d');
    InitLeaves(d, me, now, ttl, order, d');
    LiveIff(d, a, now, ttl);
  }

  lemma OwnPhase(d1: Disk, d': Disk, me: string, id: string, now: int, ttl: int)
    requires forall l :: l in d'.msgs ==> l in d1.msgs && d'.msgs[l] == d1.msgs[l]
    requires forall l :: l in d1.msgs && l !in d'.msgs ==> StaleMsg(d1.msgs[l], now, ttl)
    requires PhaseOf(d1, me, id).In? ==> PhaseOf(d1, me, id).box.Seen?
    ensures PhaseOf(d', me, id).Absent? || PhaseOf(d', me, id) == PhaseOf(d1, me, id)
    ensures PhaseOf(d1, me, id).In? && now - PhaseOf(d1, me, id).rec.epoch < ttl ==> PhaseOf(d', me, id).In?
  {
  }

  /** An ack moves the caller's unseen copy to seen, whatever is there, and nothing else. */
  lemma AckExact(d: Disk, me: string, id: string, d': Disk, name: string)
    requires Valid(d) && GoodShip(me) && Step(d, AckEvent(me, id), d') && Safe(id) == Some(name)
    ensures forall ship, i :: PhaseOf(d', ship, i) ==
              if ship == me && i == name && PhaseOf(d, ship, i).In? then In(Seen, PhaseOf(d, ship, i).rec) else PhaseOf(d, ship, i)
    ensures d'.dirs == d.dirs + {me} && d'.status == d.status && d'.seqFile == d.seqFile
  {
  }
}
