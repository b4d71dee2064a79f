/** The comms bus object: its critical sections, as methods on the directive store
    (internal/comms/commands.go, internal/comms/records.go). Every method is one section under
    the bus lock and is one Step of Delivery. */
module Bus {
  import opened Text
  import opened Decimal
  import opened Names
  import opened Disk
  import opened Delivery
  import opened Listing
  import opened Pruning

  /** What DoInit reports about an acked directive. */
  datatype InboxMsg = InboxMsg(id: string, from: string, text: string)

  class Bus {
    const ttl: int
    var msgs: map<Loc, Rec>
    var dirs: set<string>
    var status: map<string, Status>
    var seqFile: SeqFile

    function View(): Disk
      reads this
    {
      Disk(msgs, dirs, status, seqFile)
    }

    constructor (ttl: int)
      ensures View() == Disk(map[], {}, map[], NoNumber) && Valid(View()) && this.ttl == ttl
    {
      this.ttl := ttl;
      msgs, dirs, status, seqFile := map[], {}, map[], NoNumber;
    }

    /** highestMsgID */
    method HighestMsgID() returns (hi: int)
      ensures -TWO63 <= hi < TWO63 && IsHighest(View(), ToUint(hi))
    {
      hi := 0;
      var todo := msgs.Keys;
      while todo != {}
        invariant todo <= msgs.Keys && -TWO63 <= hi < TWO63
        invariant forall l :: l in msgs && l !in todo ==> ParseIdNum(l.id) <= ToUint(hi)
        invariant ToUint(hi) == 0 || exists l :: l in msgs && ParseIdNum(l.id) == ToUint(hi)
        decreases todo
      {
        var l :| l in todo;
        todo := todo - {l};
        var v := ParseIdNum(l.id);
        if v > ToUint(hi) {
          hi := ToInt(v);
        }
      }
    }

    /** nextID */
    method NextID() returns (id: string, ghost highest: nat)
      modifies `seqFile
      ensures highest < TWO64 && IsHighest(old(View()), highest)
      ensures id == FormatId(NextNum(old(seqFile), highest))
      ensures seqFile == Number(NextNum(old(seqFile), highest))
    {
      var n := 0;
      if seqFile.Number? {
        n := seqFile.n;
      }
      var hi := HighestMsgID();
      highest := ToUint(hi);
      SameBits(hi);
      if hi > n {
        n := hi;
      }
      n := Wrap(n + 1);
      assert n == NextNum(old(seqFile), highest);
      seqFile := Number(n);
      id := FormatId(n);
    }

    /** broadcastRecipients, without the sorting */
    method BroadcastRecipients(me: string) returns (rcpts: set<string>)
      ensures rcpts == Recipients(View(), me, ALL)
    {
      var known := {};
      var todo := dirs;
      while todo != {}
        invariant todo <= dirs
        invariant forall s :: s in known <==> s in dirs && s !in todo && !HasPrefix(s, ".") && s != ALL && s != ""
        decreases todo
      {
        var s :| s in todo;
        todo := todo - {s};
        if !HasPrefix(s, ".") && s != ALL && s != "" {
          known := known + {s};
        }
      }
      ghost var fromDirs := known;
      todo := status.Keys;
      while todo != {}
        invariant todo <= status.Keys
        invariant forall s :: s in known <==> s in fromDirs || (s in status && s !in todo && s != "" && !HasPrefix(s, ".") && s != ALL)
        decreases todo
      {
        var s :| s in todo;
        todo := todo - {s};
        if s != "" && !HasPrefix(s, ".") && s != ALL {
          known := known + {s};
        }
      }
      rcpts := known;
      if me !in known {
        rcpts := known + {me};
      }
      assert known == KnownShips(View());
    }

    /** The copies of one directive, each with its own recipient as target. */
    method WriteCopies(rcpts: set<string>, r: Rec)
      modifies `msgs, `dirs
      ensures View() == PostCopies(old(View()), rcpts, r)
    {
      ghost var d := View();
      var todo := rcpts;
      CopyPlaces({}, r.id);
      assert View() == PostCopies(d, {}, r);
      ghost var done: set<string> := {};
      while todo != {}
        invariant todo !! done && todo + done == rcpts
        invariant View() == PostCopies(d, done, r)
        decreases todo
      {
        var rcpt :| rcpt in todo;
        PostOneMore(d, done, r, rcpt);
        todo, done := todo - {rcpt}, done + {rcpt};
        dirs := dirs + {rcpt};
        msgs := msgs[Loc(rcpt, Unseen, r.id) := r.(target := rcpt)];
      }
      assert done == rcpts;
    }

    /** postAs: allocate an id and write one copy for each recipient. */
    method PostAs(me: string, from: string, target: string, text: string, now: int) returns (id: string)
      requires Valid(View()) && GoodShip(me) && (target == ALL || GoodShip(target))
      modifies this
      ensures exists u :: 0 <= u < TWO64 && IsHighest(old(View()), u) && View() == Post(old(View()), me, from, target, text, now, u)
                          && id == FormatId(NextNum(old(seqFile), u))
      ensures Step(old(View()), PostEvent(me, from, target, text, now), View())
      ensures Room(old(View())) ==> Valid(View())
    {
      ghost var d0 := View();
      ghost var u;
      id, u := NextID();
      var r := Rec(id, now, from, target, text);
      var rcpts := {target};
      if target == ALL {
        rcpts := BroadcastRecipients(me);
      }
      assert rcpts == Recipients(d0, me, target);
      WriteCopies(rcpts, r);
      assert View() == Post(d0, me, from, target, text, now, u);
      if Room(d0) {
        PostStep(d0, PostEvent(me, from, target, text, now), u, View());
      }
    }

    /** ackMessage */
    method AckMessage(me: string, id: string) returns (ok: bool)
      modifies `msgs, `dirs
      ensures View() == if Safe(id).None? then old(View()) else Ack(old(View()), me, Safe(id).value)
      ensures ok <==> Safe(id).Some? && PhaseOf(old(View()), me, Safe(id).value).In?
    {
      if Safe(id).None? {
        return false;
      }
      var safe := Safe(id).value;
      var src, dst := Loc(me, Unseen, safe), Loc(me, Seen, safe);
      dirs := dirs + {me};
      if src in msgs {
        msgs := (msgs - {src})[dst := msgs[src]];
        return true;
      }
      return dst in msgs;
    }

    /** DoAck: whether it was there before, acked or not, an acked directive is seen afterwards. */
    method DoAck(me: string, id: string) returns (ok: bool)
      requires Valid(View()) && GoodShip(me)
      modifies `msgs, `dirs
      ensures Valid(View()) && Step(old(View()), AckEvent(me, id), View())
      ensures ok <==> Safe(id).Some? && PhaseOf(old(View()), me, Safe(id).value).In?
      ensures ok ==> PhaseOf(View(), me, Safe(id).value) == In(Seen, PhaseOf(old(View()), me, Safe(id).value).rec)
    {
      ghost var d0 := View();
      ok := AckMessage(me, id);
      if Safe(id).Some? {
        AckStep(d0, AckEvent(me, id), Safe(id).value, View());
      }
    }

    /** allMsgRecords: every record, newest id first. */
    method AllMsgRecords() returns (out: seq<Rec>)
      requires Valid(View())
      ensures IsListing(View(), out)
    {
      out := [];
      var todo := msgs.Keys;
      ghost var done: set<Loc> := {};
      while todo != {}
        invariant todo !! done && todo + done == msgs.Keys
        invariant NewestFirst(out) && multiset(out) == multiset(RecordsAt(View(), done))
        decreases todo
      {
        var l :| l in todo;
        OneMorePlace(View(), done, l);
        InsertKeepsOrder(out, msgs[l]);
        out := Insert(out, msgs[l]);
        todo, done := todo - {l}, done + {l};
      }
      assert RecordsAt(View(), done) == set l | l in msgs :: msgs[l];
    }

    /** The status sweep that prune and init share. */
    method SweepStatus(now: int) returns (live: set<string>)
      modifies `status
      ensures View() == DropStaleStatus(old(View()), now, ttl)
      ensures live == Live(old(View()), now, ttl)
    {
      ghost var d0 := View();
      live := {};
      var todo := status.Keys;
      while todo != {}
        invariant todo <= d0.status.Keys
        invariant View() == d0.(status := status)
        invariant forall a :: a in status <==> a in d0.status && (a in todo || !StaleStatus(d0.status[a], now, ttl))
        invariant forall a :: a in status ==> status[a] == d0.status[a]
        invariant forall a :: a in live <==> a in d0.status && a !in todo && !StaleStatus(d0.status[a], now, ttl)
        decreases todo
      {
        var a :| a in todo;
        todo := todo - {a};
        if StaleStatus(status[a], now, ttl) {
          status := status - {a};
        } else {
          live := live + {a};
        }
      }
    }

    /** removeMsgCopies */
    method RemoveMsgCopies(id: string, target: string) returns (removed: bool)
      modifies `msgs
      ensures View() == Remove(old(View()), id, target)
      ensures removed <==> PhaseOf(old(View()), target, id).In?
    {
      removed := Loc(target, Unseen, id) in msgs || Loc(target, Seen, id) in msgs;
      msgs := msgs - {Loc(target, Unseen, id), Loc(target, Seen, id)};
    }

    /** Has every live agent a seen copy of this id? */
    method AllAcked(id: string, live: set<string>) returns (all: bool)
      ensures all <==> forall a :: a in live ==> Acked(View(), id, a)
    {
      all := true;
      var todo := live;
      while todo != {}
        invariant todo <= live && (all <==> forall a :: a in live && a !in todo ==> Acked(View(), id, a))
        decreases todo
      {
        var a :| a in todo;
        todo := todo - {a};
        if Loc(a, Seen, id) !in msgs {
          all := false;
          assert !Acked(View(), id, a);
          break;
        }
      }
    }

    /** DoPrune: sweep the board, then drop every spent directive. */
    method DoPrune(now: int) returns (count: nat)
      requires Valid(View())
      modifies `msgs, `status
      ensures View() == Prune(old(View()), now, ttl)
      ensures Valid(View()) && Step(old(View()), PruneEvent(now, ttl), View())
      ensures count == |old(msgs)| - |msgs|
    {
      ghost var d0 := View();
      count := 0;
      var live := SweepStatus(now);
      ghost var d1 := View();
      assert Valid(d1);
      var order := AllMsgRecords();
      ListedAreRecords(d1, order);
      for i := 0 to |order|
        invariant View() == PrunedUpTo(d1, live, order[..i], now, ttl)
        invariant count + |msgs| == |d0.msgs|
      {
        var m := order[i];
        PruneOneMore(d1, live, order, i, now, ttl);
        RemoveCounts(View(), d1, m.id, m.target);
        if !StaleMsg(m, now, ttl) {
          continue;
        }
        if m.target in live && Loc(m.target, Seen, m.id) !in msgs {
          continue;
        }
        var removed := RemoveMsgCopies(m.id, m.target);
        if removed {
          count := count + 1;
        }
      }
      assert order[..|order|] == order;
      AllPruned(d0, d1, live, order, now, ttl);
      PruneStep(d0, PruneEvent(now, ttl), View());
    }

    /** DoInit's first stage: ack everything unseen of this ship. */
    method AckInbox(me: string) returns (acked: seq<InboxMsg>)
      requires Valid(View()) && GoodShip(me)
      modifies `msgs, `dirs
      ensures Valid(View()) && View() == AckAll(old(View()), me)
      ensures AllReported(old(View()), me, acked, UnseenOf(old(View()), me))
    {
      ghost var d0 := View();
      acked := [];
      var order := AllMsgRecords();
      ListedAreRecords(d0, order);
      assert UnseenListed(d0, me, order[..0]) == {};
      AckNone(d0, me);
      for i := 0 to |order|
        invariant View() == AckSome(d0, me, UnseenListed(d0, me, order[..i]))
        invariant AllReported(d0, me, acked, UnseenListed(d0, me, order[..i]))
      {
        var m := order[i];
        OneMoreListed(d0, me, order, i);
        AckOneMore(d0, me, order, i);
        if m.target != me {
          continue;
        }
        if Loc(me, Seen, m.id) in msgs {
          continue;
        }
        assert IsRecordOf(d0, m);
        GoodIdIsSafe(m.id);
        var ok := AckMessage(me, m.id);
        if !ok {
          continue;
        }
        ReportOneMore(d0, me, acked, UnseenListed(d0, me, order[..i]), m);
        acked := acked + [InboxMsg(m.id, m.from, m.text)];
      }
      assert order[..|order|] == order;
      AllListed(d0, me, order);
      AckAllStep(d0, me);
    }

    /** DoInit: ack my inbox, sweep the board, prune what every live agent has seen, go idle. */
    method DoInit(me: string, now: int) returns (acked: seq<InboxMsg>)
      requires Valid(View()) && GoodShip(me)
      modifies this
      ensures Valid(View()) && Step(old(View()), InitEvent(me, now, ttl), View())
      ensures AllReported(old(View()), me, acked, UnseenOf(old(View()), me))
    {
      ghost var d0 := View();
      acked := AckInbox(me);
      ghost var d1 := View();
      var live := SweepStatus(now);
      ghost var d2 := View();
      assert Valid(d2) && d2 == DropStaleStatus(d1, now, ttl);
      var order := AllMsgRecords();
      assert Records(d2) == Records(d1);
      for i := 0 to |order|
        invariant View() == InitPrune(d2, live, order[..i], now, ttl)
      {
        var m := order[i];
        assert order[..i + 1][..i] == order[..i];
        if !StaleMsg(m, now, ttl) {
          continue;
        }
        var canPrune := AllAcked(m.id, live);
        if !canPrune {
          continue;
        }
        var removed := RemoveMsgCopies(m.id, m.target);
      }
      assert order[..|order|] == order;
      ListedAreRecords(d2, order);
      InitPruneRemovesSpent(d2, live, order, now, ttl);
      status := status[me := Status(now, true)];
      assert InitStep(d0, me, now, ttl, order, View());
      InitStepIsLegal(d0, InitEvent(me, now, ttl), order, View());
    }

    /** inboxCount: a scan of all records. */
    method InboxCount(agent: string) returns (cnt: nat)
      requires Valid(View())
      ensures cnt == |UnseenOf(View(), agent)|
    {
      cnt := 0;
      ghost var d := View();
      var order := AllMsgRecords();
      assert UnseenListed(d, agent, order[..0]) == {};
      for i := 0 to |order|
        invariant cnt == |UnseenListed(d, agent, order[..i])|
      {
        OneMoreListed(d, agent, order, i);
        if order[i].target != agent {
          continue;
        }
        if Loc(agent, Seen, order[i].id) in msgs {
          continue;
        }
        cnt := cnt + 1;
      }
      assert order[..|order|] == order;
      AllListed(d, agent, order);
    }

    /** InboxCounts: one pass over the directories; a ship without unseen files gets no entry. */
    method InboxCounts() returns (counts: map<string, nat>)
      requires Valid(View())
      ensures forall s :: (if s in counts then counts[s] else 0) == |UnseenOf(View(), s)|
      ensures forall s :: s in counts ==> counts[s] > 0
    {
      counts := map[];
      var todo := dirs;
      while todo != {}
        invariant todo <= dirs
        invariant forall s :: s in counts ==> s in dirs && s !in todo && counts[s] > 0 && counts[s] == |UnseenOf(View(), s)|
        invariant forall s :: s in dirs && s !in todo && s !in counts ==> UnseenOf(View(), s) == {}
        decreases todo
      {
        var s :| s in todo;
        todo := todo - {s};
        if HasPrefix(s, ".") {
          HiddenIsEmpty(View(), s);
          continue;
        }
        var n := |set l | l in msgs && l.ship == s && l.box.Unseen?|;
        if n > 0 {
          counts := counts[s := n];
        }
      }
      forall s | s !in counts ensures UnseenOf(View(), s) == {} {
        assert forall l :: l in msgs ==> l.ship in dirs;
      }
    }
  }

  lemma PostOneMore(d: Disk, done: set<string>, r: Rec, rcpt: string)
    ensures PostCopies(d, done + {rcpt}, r) ==
              PostCopies(d, done, r).(msgs := PostCopies(d, done, r).msgs[Loc(rcpt, Unseen, r.id) := r.(target := rcpt)],
                                      dirs := PostCopies(d, done, r).dirs + {rcpt})
  {
    CopyPlaces(done, r.id);
    CopyPlaces(done + {rcpt}, r.id);
    var a, b := PostCopies(d, done + {rcpt}, r), PostCopies(d, done, r);
    assert a.msgs == b.msgs[Loc(rcpt, Unseen, r.id) := r.(target := rcpt)];
  }

  lemma CopyPlaces(ships: set<string>, id: string)
    ensures forall l :: l in (set s | s in ships :: Loc(s, Unseen, id)) <==> l.box.Unseen? && l.id == id && l.ship in ships
  {
    forall l: Loc | l.box.Unseen? && l.id == id && l.ship in ships ensures l in (set s | s in ships :: Loc(s, Unseen, id)) {
      assert l == Loc(l.ship, Unseen, id);
    }
  }

  /** A reported directive is one that was unseen. */
  ghost predicate Reports(d: Disk, me: string, m: InboxMsg) {
    var l := Loc(me, Unseen, m.id);
    l in d.msgs && d.msgs[l].from == m.from && d.msgs[l].text == m.text
  }

  /** One report for each of these places. */
  ghost predicate AllReported(d: Disk, me: string, acked: seq<InboxMsg>, places: set<Loc>) {
    && |acked| == |places|
    && (forall k :: 0 <= k < |acked| ==> Reports(d, me, acked[k]) && Loc(me, Unseen, acked[k].id) in places)
    && (forall j, k :: 0 <= j < k < |acked| ==> acked[j].id != acked[k].id)
  }

  lemma ReportOneMore(d: Disk, me: string, acked: seq<InboxMsg>, places: set<Loc>, m: Rec)
    requires AllReported(d, me, acked, places)
    requires Reports(d, me, InboxMsg(m.id, m.from, m.text)) && Loc(me, Unseen, m.id) !in places
    ensures AllReported(d, me, acked + [InboxMsg(m.id, m.from, m.text)], places + {Loc(me, Unseen, m.id)})
  {
  }

  lemma AckNone(d: Disk, me: string)
    ensures AckSome(d, me, {}) == d
  {
    assert SeenPlaces(me, {}) == {};
    assert AckSome(d, me, {}).msgs == d.msgs;
  }

  lemma HiddenIsEmpty(d: Disk, s: string)
    requires Valid(d) && HasPrefix(s, ".")
    ensures UnseenOf(d, s) == {}
  {
    assert s[..1] == "." && s[0] == s[..1][0];
    assert forall l :: l in d.msgs ==> GoodShip(l.ship);
  }

  lemma GoodIdIsSafe(id: string)
    requires GoodId(id)
    ensures Safe(id) == Some(id)
  {
    forall i | 0 <= i <= |id| ensures !HasPrefix(id[i..], "/") && !HasPrefix(id[i..], "..") {
      if i < |id| {
        assert id[i..][0] == id[i] && id[i] != '/' && id[i] != '.';
      }
    }
    assert Fsafe(id) == id;
  }

  /** Acking the next listed directive, if it is this ship's and still unseen. */
  lemma AckOneMore(d: Disk, me: string, order: seq<Rec>, i: nat)
    requires Valid(d) && IsListing(d, order) && i < |order| && GoodShip(me)
    ensures var a, b := AckSome(d, me, UnseenListed(d, me, order[..i])), AckSome(d, me, UnseenListed(d, me, order[..i + 1]));
            var m := order[i];
            && (m.target == me ==> (Acked(a, m.id, me) <==> Acked(d, m.id, me)) && PhaseOf(a, me, m.id).In?)
            && (m.target == me && !Acked(d, m.id, me) ==> b == Ack(a, me, m.id) && Reports(d, me, InboxMsg(m.id, m.from, m.text)))
            && (m.target != me || Acked(d, m.id, me) ==> b == a)
  {
    var P, Q := UnseenListed(d, me, order[..i]), UnseenListed(d, me, order[..i + 1]);
    OneMoreListed(d, me, order, i);
    AckedCopies(d, me, P);
    assert Loc(me, Unseen, order[i].id) in d.msgs ==> Loc(me, Seen, order[i].id) !in d.msgs;
    if order[i].target == me {
      var own := OwnPlace(d, order, i);
      if !Acked(d, order[i].id, me) {
        AckIntoSome(d, me, P, order[i].id);
      }
    }
  }

  lemma AckIntoSome(d: Disk, me: string, places: set<Loc>, id: string)
    requires Valid(d) && places <= UnseenOf(d, me)
    requires Loc(me, Unseen, id) in d.msgs && Loc(me, Unseen, id) !in places
    ensures Ack(AckSome(d, me, places), me, id) == AckSome(d, me, places + {Loc(me, Unseen, id)})
  {
    var more := places + {Loc(me, Unseen, id)};
    var a, b := AckSome(d, me, places), AckSome(d, me, more);
    AckedCopies(d, me, places);
    AckedCopies(d, me, more);
    AckingIsSomeMore(d, me, places, a.msgs, id);
    SomeIsUnique(d, me, more, (a.msgs - {Loc(me, Unseen, id)})[Loc(me, Seen, id) := a.msgs[Loc(me, Unseen, id)]], b.msgs);
  }

  /** The message files after this ship acked the copies at some places. */
  ghost predicate IsSome(d: Disk, me: string, places: set<Loc>, m: map<Loc, Rec>) {
    && (forall l: Loc :: l.ship != me ==> (l in m <==> l in d.msgs))
    && (forall i :: Loc(me, Unseen, i) in m <==> Loc(me, Unseen, i) in d.msgs && Loc(me, Unseen, i) !in places)
    && (forall i :: Loc(me, Seen, i) in m <==> Loc(me, Seen, i) in d.msgs || Loc(me, Unseen, i) in places)
    && (forall l :: l in m && l in d.msgs ==> m[l] == d.msgs[l])
    && (forall l :: l in m && l !in d.msgs ==>
          l.ship == me && l.box.Seen? && Loc(me, Unseen, l.id) in d.msgs && m[l] == d.msgs[Loc(me, Unseen, l.id)])
  }

  lemma AckingIsSomeMore(d: Disk, me: string, places: set<Loc>, m: map<Loc, Rec>, id: string)
    requires Valid(d) && IsSome(d, me, places, m) && places <= UnseenOf(d, me)
    requires Loc(me, Unseen, id) in d.msgs && Loc(me, Unseen, id) !in places
    ensures Loc(me, Unseen, id) in m
    ensures IsSome(d, me, places + {Loc(me, Unseen, id)}, (m - {Loc(me, Unseen, id)})[Loc(me, Seen, id) := m[Loc(me, Unseen, id)]])
  {
  }

  lemma SomeIsUnique(d: Disk, me: string, places: set<Loc>, a: map<Loc, Rec>, b: map<Loc, Rec>)
    requires IsSome(d, me, places, a) && IsSome(d, me, places, b)
    ensures a == b
  {
    forall l ensures l in a <==> l in b {
      if l.ship == me {
        assert l.box.Seen? ==> l == Loc(me, Seen, l.id);
        assert l.box.Unseen? ==> l == Loc(me, Unseen, l.id);
      }
    }
    assert a.Keys == b.Keys;
  }

  /** What pruning has dropped after part of a listing. */
  ghost function PrunedUpTo(d: Disk, live: set<string>, part: seq<Rec>, now: int, ttl: int): Disk {
    d.(msgs := map l | l in d.msgs && !(d.msgs[l] in part && StaleMsg(d.msgs[l], now, ttl) && (l.ship in live ==> l.box.Seen?)) :: d.msgs[l])
  }

  lemma PruneOneMore(d: Disk, live: set<string>, order: seq<Rec>, i: nat, now: int, ttl: int)
    requires Valid(d) && IsListing(d, order) && i < |order|
    ensures var a, b := PrunedUpTo(d, live, order[..i], now, ttl), PrunedUpTo(d, live, order[..i + 1], now, ttl);
            var m := order[i];
            if StaleMsg(m, now, ttl) && !(m.target in live && !Acked(a, m.id, m.target)) then b == Remove(a, m.id, m.target) else b == a
  {
    var a, b := PrunedUpTo(d, live, order[..i], now, ttl), PrunedUpTo(d, live, order[..i + 1], now, ttl);
    var own := OwnPlace(d, order, i);
    assert order[..i + 1] == order[..i] + [order[i]];
    assert Acked(a, own.id, own.ship) <==> own.box.Seen?;
    var m := order[i];
    if StaleMsg(m, now, ttl) && (m.target in live ==> own.box.Seen?) {
      forall l | l in d.msgs ensures l in b.msgs <==> l in Remove(a, m.id, m.target).msgs {
        RemovesItsOwn(d, a, m, l);
      }
      assert b.msgs == Remove(a, m.id, m.target).msgs;
    } else {
      assert b.msgs == a.msgs;
    }
  }

  /** Removing the copies of an id removes at most one, because a valid store has at most one. */
  lemma RemoveCounts(d: Disk, whole: Disk, id: string, target: string)
    requires Valid(whole) && forall l :: l in d.msgs ==> l in whole.msgs
    ensures |Remove(d, id, target).msgs| == |d.msgs| - if PhaseOf(d, target, id).In? then 1 else 0
  {
    var u, s := Loc(target, Unseen, id), Loc(target, Seen, id);
    assert !(u in whole.msgs && s in whole.msgs);
    WithoutTwo(d.msgs, u, s);
  }

  lemma WithoutTwo(m: map<Loc, Rec>, u: Loc, s: Loc)
    requires u != s && !(u in m && s in m)
    ensures |m - {u, s}| == |m| - if u in m || s in m then 1 else 0
  {
    var rest := m - {u, s};
    assert rest.Keys == m.Keys - {u, s};
    assert m.Keys - {u, s} == if u in m then m.Keys - {u} else m.Keys - {s};
  }

  lemma AllPruned(d0: Disk, d: Disk, live: set<string>, order: seq<Rec>, now: int, ttl: int)
    requires d == DropStaleStatus(d0, now, ttl) && live == Live(d0, now, ttl) && IsListing(d, order)
    ensures PrunedUpTo(d, live, order, now, ttl) == Prune(d0, now, ttl)
  {
    forall l | l in d.msgs ensures d.msgs[l] in order {
      assert d.msgs[l] in Records(d);
      assert d.msgs[l] in multiset(order);
    }
  }
}
