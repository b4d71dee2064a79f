/** Listing the store newest first, and counting what a listing shows (internal/comms/records.go). */
module Listing {
  import opened Text
  import opened Decimal
  import opened Names
  import opened Disk
  import opened Delivery

  /** Insertion into a list kept newest first. */
  function Insert(s: seq<Rec>, r: Rec): (t: seq<Rec>)
    ensures multiset(t) == multiset(s) + multiset{r}
  {
    if s == [] then [r]
    else if ParseIdNum(r.id) >= ParseIdNum(s[0].id) then [r] + s
    else
      assert s == [s[0]] + s[1..];
      [s[0]] + Insert(s[1..], r)
  }

  ghost predicate NewestFirst(s: seq<Rec>) {
    forall i, j :: 0 <= i < j < |s| ==> ParseIdNum(s[i].id) >= ParseIdNum(s[j].id)
  }

  lemma PrependKeepsOrder(x: Rec, t: seq<Rec>)
    requires NewestFirst(t) && forall i :: 0 <= i < |t| ==> ParseIdNum(x.id) >= ParseIdNum(t[i].id)
    ensures NewestFirst([x] + t)
  {
  }

  lemma {:induction false} InsertKeepsOrder(s: seq<Rec>, r: Rec)
    requires NewestFirst(s)
    ensures NewestFirst(Insert(s, r))
  {
    if s == [] || ParseIdNum(r.id) >= ParseIdNum(s[0].id) {
      PrependKeepsOrder(r, s);
      assert [r] + s == Insert(s, r);
    } else {
      var t := Insert(s[1..], r);
      InsertKeepsOrder(s[1..], r);
      forall i | 0 <= i < |t| ensures ParseIdNum(s[0].id) >= ParseIdNum(t[i].id) {
        InsertedFrom(s[1..], r, i);
      }
      PrependKeepsOrder(s[0], t);
    }
  }

  lemma InsertedFrom(s: seq<Rec>, r: Rec, i: nat)
    requires i < |Insert(s, r)|
    ensures Insert(s, r)[i] == r || Insert(s, r)[i] in s
  {
    var t := Insert(s, r);
    assert t[i] in multiset(t);
    if t[i] != r {
      assert t[i] in multiset(s);
    }
  }

  /** The records at some of the places. */
  ghost function RecordsAt(d: Disk, ls: set<Loc>): set<Rec>
    requires forall l :: l in ls ==> l in d.msgs
  {
    set l | l in ls :: d.msgs[l]
  }

  lemma OneMorePlace(d: Disk, ls: set<Loc>, l: Loc)
    requires Valid(d) && l in d.msgs && l !in ls
    requires forall k :: k in ls ==> k in d.msgs
    ensures multiset(RecordsAt(d, ls + {l})) == multiset(RecordsAt(d, ls)) + multiset{d.msgs[l]}
  {
    var a, b := RecordsAt(d, ls), RecordsAt(d, ls + {l});
    assert b == a + {d.msgs[l]};
    if d.msgs[l] in a {
      var k :| k in ls && d.msgs[k] == d.msgs[l];
      SameCopy(d, k, l);
    }
  }

  /** A listing names every record once. */
  lemma ListedOnce(d: Disk, order: seq<Rec>, i: nat, j: nat)
    requires IsListing(d, order) && i < j < |order|
    ensures order[i] != order[j]
  {
    var r := order[i];
    assert Records(d)[r] <= 1;
    if order[i] == order[j] {
      TwiceCounted(order, i, j);
    }
  }

  lemma TwiceCounted(s: seq<Rec>, i: nat, j: nat)
    requires i < j < |s| && s[i] == s[j]
    ensures multiset(s)[s[i]] >= 2
  {
    assert s == s[..j] + [s[j]] + s[j + 1..];
    assert s[..j][i] in multiset(s[..j]);
  }

  /** The unseen places of a ship whose record a part of the listing names. */
  ghost function UnseenListed(d: Disk, ship: string, part: seq<Rec>): set<Loc> {
    set l | l in UnseenOf(d, ship) && d.msgs[l] in part
  }

  /** The next listed record adds its own place, if it is this ship's and not acked. */
  lemma OneMoreListed(d: Disk, ship: string, order: seq<Rec>, i: nat)
    requires Valid(d) && IsListing(d, order) && i < |order|
    ensures var place := Loc(ship, Unseen, order[i].id);
            var a, b := UnseenListed(d, ship, order[..i]), UnseenListed(d, ship, order[..i + 1]);
            if order[i].target == ship && !Acked(d, order[i].id, ship) then
              place in d.msgs && d.msgs[place] == order[i] && place !in a && b == a + {place} && |b| == |a| + 1
            else b == a
  {
    var own := OwnPlace(d, order, i);
    var a, b := UnseenListed(d, ship, order[..i]), UnseenListed(d, ship, order[..i + 1]);
    assert order[..i + 1] == order[..i] + [order[i]];
    forall l | l in UnseenOf(d, ship) ensures l in b <==> l in a || l == own {
      assert d.msgs[l] in order[..i + 1] <==> d.msgs[l] in order[..i] || d.msgs[l] == order[i];
    }
    assert own !in a;
    assert own in UnseenOf(d, ship) <==> order[i].target == ship && !Acked(d, order[i].id, ship);
    if own in UnseenOf(d, ship) {
      assert b == a + {own};
      assert own == Loc(ship, Unseen, order[i].id);
    } else {
      assert b == a;
    }
  }

  /** The one place of the i-th record of a listing. */
  lemma OwnPlace(d: Disk, order: seq<Rec>, i: nat) returns (own: Loc)
    requires Valid(d) && IsListing(d, order) && i < |order|
    ensures own in d.msgs && own.ship == order[i].target && own.id == order[i].id
    ensures forall l :: l in d.msgs ==> (d.msgs[l] == order[i] <==> l == own)
    ensures order[i] !in order[..i]
    ensures Acked(d, own.id, own.ship) <==> own.box.Seen?
    ensures own == Loc(own.ship, if own.box.Seen? then Seen else Unseen, own.id)
  {
    ListedAreRecords(d, order);
    assert IsRecordOf(d, order[i]);
    own :| own in d.msgs && d.msgs[own] == order[i];
    forall l | l in d.msgs && d.msgs[l] == order[i] ensures l == own {
      SameCopy(d, own, l);
    }
    if order[i] in order[..i] {
      var j :| 0 <= j < i && order[..i][j] == order[i];
      ListedOnce(d, order, j, i);
    }
    assert Loc(own.ship, Unseen, own.id) in d.msgs ==> Loc(own.ship, Seen, own.id) !in d.msgs;
  }

  lemma AllListed(d: Disk, ship: string, order: seq<Rec>)
    requires IsListing(d, order)
    ensures UnseenListed(d, ship, order) == UnseenOf(d, ship)
  {
    forall l | l in UnseenOf(d, ship) ensures d.msgs[l] in order {
      assert d.msgs[l] in Records(d);
      assert d.msgs[l] in multiset(order);
    }
  }
}
