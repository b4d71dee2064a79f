/** The PR-claim registry (internal/prclaim): an advisory lock with expiry, stealing and forced
    release. One file per PR, one critical section per command. */
module Claims {
  import opened Text
  import opened Decimal
  import opened Names

  datatype Claim = Claim(epoch: int, iso: string, agent: string, note: string)

  /** A field that survives the tab-separated line. */
  predicate Plain(s: string) {
    '\t' !in s && '\n' !in s
  }

  function FirstLine(s: string): string {
    match IndexOf(s, '\n')
    case None => s
    case Some(i) => s[..i]
  }

  /** strings.SplitN(s, "\t", n) */
  function SplitN(s: string, c: char, n: nat): (parts: seq<string>)
    requires n >= 1
    ensures 1 <= |parts| <= n
  {
    if n == 1 || IndexOf(s, c).None? then [s]
    else
      var i := IndexOf(s, c).value;
      [s[..i]] + SplitN(s[i + 1..], c, n - 1)
  }

  /** The epoch field, with the parser's errors ignored: junk is 0, too large is clamped. */
  function EpochOf(s: string): int {
    var v := ParseInt(s);
    if v.Some? then v.value
    else
      var negative := HasPrefix(s, "-");
      var body := if negative || HasPrefix(s, "+") then s[1..] else s;
      if body == "" || !AllDigits(body) then 0 else if negative then -TWO63 else MAX_INT64
  }

  /** A number that does not fit is clamped to int64, and anything else is 0. */
  lemma EpochIs(s: string)
    ensures var body := if s != "" && (s[0] == '-' || s[0] == '+') then s[1..] else s;
            EpochOf(s) ==
              if body == "" || !AllDigits(body) then 0
              else if s[0] == '-' then (if Value(body) > 0x8000_0000_0000_0000 then -0x8000_0000_0000_0000 else -(Value(body) as int))
              else if Value(body) > 0x7fff_ffff_ffff_ffff then 0x7fff_ffff_ffff_ffff
              else Value(body)
  {
    if s != "" {
      assert s[..1] == [s[0]];
    }
  }

  function Field(f: seq<string>, i: nat): string {
    if i < |f| then f[i] else ""
  }

  /** readClaim, for a file that exists. */
  function Parse(content: string): Claim {
    var f := SplitN(FirstLine(content), '\t', 4);
    Claim(EpochOf(Field(f, 0)), Field(f, 1), Field(f, 2), Field(f, 3))
  }

  /** writeClaim */
  function Render(now: int, iso: string, agent: string, note: string): string {
    FormatInt(now) + "\t" + iso + "\t" + agent + "\t" + Clean(note) + "\n"
  }

  lemma SplitNStep(a: string, c: char, b: string, n: nat)
    requires c !in a && n >= 2
    ensures SplitN(a + [c] + b, c, n) == [a] + SplitN(b, c, n - 1)
  {
    IndexOfAfter(a, c, b);
    var s := a + [c] + b;
    assert s[..|a|] == a && s[|a| + 1..] == b;
  }

  /** readClaim returns what writeClaim stored: for ids and times without tabs or newlines,
      whatever the note (its tabs and newlines come back as spaces). */
  lemma ReadsWhatWasWritten(now: int, iso: string, agent: string, note: string)
    requires -TWO63 <= now < TWO63 && Plain(iso) && Plain(agent)
    ensures Parse(Render(now, iso, agent, note)) == Claim(now, iso, agent, Clean(note))
  {
    var e, c := FormatInt(now), Clean(note);
    FormatIntHasNo(now, '\t');
    FormatIntHasNo(now, '\n');
    var line := e + ['\t'] + (iso + ['\t'] + (agent + ['\t'] + c));
    assert Render(now, iso, agent, note) == line + ['\n'] + "";
    IndexOfAfter(line, '\n', "");
    assert (line + ['\n'] + "")[..|line|] == line;
    FourFields(e, iso, agent, c);
    ParseFormattedInt(now);
  }

  lemma FourFields(a: string, b: string, c: string, d: string)
    requires '\t' !in a && '\t' !in b && '\t' !in c
    ensures SplitN(a + ['\t'] + (b + ['\t'] + (c + ['\t'] + d)), '\t', 4) == [a, b, c, d]
  {
    SplitNStep(a, '\t', b + ['\t'] + (c + ['\t'] + d), 4);
    SplitNStep(b, '\t', c + ['\t'] + d, 3);
    SplitNStep(c, '\t', d, 2);
  }

  // ---------- the registry ----------

  /** The claims on record, by safe PR id. */
  type Board = map<string, Claim>

  /** The claim at a path that cfile allowed, if any. */
  function At(b: Board, path: Option<string>): Option<Claim> {
    if path.Some? && path.value in b then Some(b[path.value]) else None
  }

  function Holder(b: Board, pr: string): Option<Claim> {
    At(b, Safe(pr))
  }

  predicate Stale(c: Claim, now: int, ttl: int) {
    now - c.epoch >= ttl
  }

  datatype Outcome = Claimed | Refreshed | Reclaimed | Stolen | Held | BadPR | Released | NotClaimed

  /** Exit code 3 is the only refusal; an unusable PR id is an error of its own. */
  function ExitCode(o: Outcome): int {
    match o
    case Held => 3
    case BadPR => 1
    case _ => 0
  }

  function ClaimOutcome(b: Board, me: string, path: Option<string>, force: bool, now: int, ttl: int): Outcome {
    match At(b, path)
    case None => if path.None? then BadPR else Claimed
    case Some(c) =>
      if c.agent == me then Refreshed else if Stale(c, now, ttl) then Reclaimed else if force then Stolen else Held
  }

  function ReleaseOutcome(b: Board, me: string, path: Option<string>, force: bool): Outcome {
    match At(b, path)
    case None => NotClaimed
    case Some(c) => if c.agent != me && !force then Held else Released
  }

  /** One command; path is the claim file of the PR it names, if the name is usable. */
  datatype Event =
    | ClaimEvent(me: string, path: Option<string>, note: string, force: bool, now: int, iso: string)
    | ReleaseEvent(me: string, path: Option<string>, force: bool)
    | ReleaseAllEvent(me: string)

  /** The claims of one agent. */
  function Mine(b: Board, me: string): set<string> {
    set k | k in b && b[k].agent == me
  }

  function Step(b: Board, e: Event, ttl: int): Board {
    match e
    case ClaimEvent(me, path, note, force, now, iso) =>
      if ClaimOutcome(b, me, path, force, now, ttl) in {Held, BadPR} then b
      else b[path.value := Claim(now, iso, me, Clean(note))]
    case ReleaseEvent(me, path, force) =>
      if ReleaseOutcome(b, me, path, force).Released? then b - {path.value} else b
    case ReleaseAllEvent(me) => b - Mine(b, me)
  }

  /** The file at k says what the board says. */
  ghost predicate Says(files: map<string, string>, b: Board, k: string) {
    k in files && k in b && b[k] == Parse(files[k])
  }

  /** The claim files of a registry directory, and what they say. */
  class Registry {
    const ttl: int
    var files: map<string, string>
    ghost var board: Board

    ghost predicate Valid()
      reads this
    {
      board.Keys == files.Keys && forall k {:trigger Says(files, board, k)} :: k in files ==> Says(files, board, k)
    }

    constructor (ttl: int)
      ensures Valid() && board == map[] && this.ttl == ttl
    {
      this.ttl := ttl;
      files, board := map[], map[];
    }

    /** readClaim, after cfile */
    method ReadAt(path: Option<string>) returns (r: Option<Claim>)
      requires Valid()
      ensures r == At(board, path)
    {
      if path.None? || path.value !in files {
        return None;
      }
      assert Says(files, board, path.value);
      var c := ParseLine(files[path.value]);
      return Some(c);
    }

    /** writeClaim, after cfile */
    method WriteAt(path: Option<string>, me: string, note: string, now: int, iso: string) returns (ok: bool)
      requires Valid() && Plain(me) && Plain(iso) && -TWO63 <= now < TWO63
      modifies `files, `board
      ensures Valid() && (ok <==> path.Some?)
      ensures board == if ok then old(board)[path.value := Claim(now, iso, me, Clean(note))] else old(board)
    {
      if path.None? {
        return false;
      }
      var content := FormatInt(now) + "\t" + iso + "\t" + me + "\t" + Clean(note) + "\n";
      assert content == Render(now, iso, me, note);
      ReadsWhatWasWritten(now, iso, me, note);
      files := files[path.value := content];
      board := board[path.value := Claim(now, iso, me, Clean(note))];
      forall k | k in files ensures Says(files, board, k) {
        assert k != path.value ==> Says(old(files), old(board), k);
      }
      return true;
    }

    /** removeClaim, after cfile */
    method RemoveAt(path: string)
      requires Valid()
      modifies `files, `board
      ensures Valid() && board == old(board) - {path}
    {
      files := files - {path};
      board := board - {path};
      forall k | k in files ensures Says(files, board, k) {
        assert Says(old(files), old(board), k);
      }
    }

    /** DoClaim */
    method DoClaim(me: string, pr: string, note: string, force: bool, now: int, iso: string) returns (o: Outcome)
      requires Valid() && Plain(me) && Plain(iso) && -TWO63 <= now < TWO63
      modifies `files, `board
      ensures Valid() && o == ClaimOutcome(old(board), me, Safe(pr), force, now, ttl)
      ensures board == Step(old(board), ClaimEvent(me, Safe(pr), note, force, now, iso), ttl)
    {
      var path := Safe(pr);
      var r := ReadAt(path);
      var ok;
      if r.Some? {
        if r.value.agent == me {
          ok := WriteAt(path, me, note, now, iso);
          return Refreshed;
        }
        if Stale(r.value, now, ttl) {
          ok := WriteAt(path, me, note, now, iso);
          return Reclaimed;
        }
        if force {
          ok := WriteAt(path, me, note, now, iso);
          return Stolen;
        }
        return Held;
      }
      ok := WriteAt(path, me, note, now, iso);
      return if ok then Claimed else BadPR;
    }

    /** DoRelease */
    method DoRelease(me: string, pr: string, force: bool) returns (o: Outcome)
      requires Valid()
      modifies `files, `board
      ensures Valid() && o == ReleaseOutcome(old(board), me, Safe(pr), force)
      ensures board == Step(old(board), ReleaseEvent(me, Safe(pr), force), ttl)
    {
      var path := Safe(pr);
      var r := ReadAt(path);
      if r.None? {
        return NotClaimed;
      }
      if r.value.agent != me && !force {
        return Held;
      }
      RemoveAt(path.value);
      return Released;
    }

    /** DoReleaseAll: a loop over the claim files; a file's name is its own safe name. */
    method DoReleaseAll(me: string) returns (cnt: nat)
      requires Valid()
      modifies `files, `board
      ensures Valid() && board == Step(old(board), ReleaseAllEvent(me), ttl)
      ensures cnt == |Mine(old(board), me)|
    {
      cnt := 0;
      var todo := files.Keys;
      while todo != {}
        invariant Valid() && todo <= files.Keys
        invariant cnt + |Mine(board, me)| == |Mine(old(board), me)|
        invariant board - Mine(board, me) == old(board) - Mine(old(board), me)
        invariant Mine(board, me) <= todo
        decreases todo
      {
        var k :| k in todo;
        var r := ReadAt(Some(k));
        if r.Some? && r.value.agent == me {
          RemoveMine(board, me, k);
          RemoveAt(k);
          cnt := cnt + 1;
        }
        todo := todo - {k};
      }
      assert board - {} == board;
    }

    /** DoWho: 3 exactly when somebody else holds a claim that is not stale. */
    method DoWho(me: string, pr: string, now: int) returns (code: int)
      requires Valid()
      ensures var h := Holder(board, pr);
              code == if h.Some? && h.value.agent != me && !Stale(h.value, now, ttl) then 3 else 0
    {
      var r := ReadAt(Safe(pr));
      if r.None? {
        return 0;
      }
      if r.value.agent == me || Stale(r.value, now, ttl) {
        return 0;
      }
      return 3;
    }
  }

  /** The parsing half of readClaim: split, pad to four fields, parse the epoch. */
  method ParseLine(content: string) returns (c: Claim)
    ensures c == Parse(content)
  {
    var f := SplitN(FirstLine(content), '\t', 4);
    ghost var f0 := f;
    while |f| < 4
      invariant |f| <= 4
      invariant forall i :: 0 <= i < 4 ==> Field(f, i) == Field(f0, i)
      decreases 4 - |f|
    {
      f := f + [""];
    }
    assert forall i :: 0 <= i < 4 ==> f[i] == Field(f, i);
    return Claim(EpochOf(f[0]), f[1], f[2], f[3]);
  }

  lemma RemoveMine(b: Board, me: string, k: string)
    requires k in Mine(b, me)
    ensures Mine(b - {k}, me) == Mine(b, me) - {k}
    ensures (b - {k}) - Mine(b - {k}, me) == b - Mine(b, me)
  {
    assert Mine(b - {k}, me) == Mine(b, me) - {k};
  }

  // ---------- what one command comes to ----------

  /** When a claim succeeds: nobody holds the PR, or the caller does, or the time to live has passed, or it
      is a steal. Then the record is the caller's, from now on; otherwise it exits 3 and changes nothing. */
  lemma ClaimIff(b: Board, me: string, path: Option<string>, note: string, force: bool, now: int, iso: string, ttl: int)
    ensures var o, b' := ClaimOutcome(b, me, path, force, now, ttl), Step(b, ClaimEvent(me, path, note, force, now, iso), ttl);
            && (path.None? ==> ExitCode(o) == 1 && b' == b)
            && (path.Some? ==>
                  var free := path.value !in b || b[path.value].agent == me || now - b[path.value].epoch >= ttl || force;
                  && ExitCode(o) == (if free then 0 else 3)
                  && b' == (if free then b[path.value := Claim(now, iso, me, Clean(note))] else b))
            && (o == Claimed ==> path.value !in b)
            && (o == Refreshed ==> b[path.value].agent == me)
            && (o == Reclaimed ==> b[path.value].agent != me && now - b[path.value].epoch >= ttl)
            && (o == Stolen ==> b[path.value].agent != me && now - b[path.value].epoch < ttl)
  {
  }

  /** When a release removes a claim: there is one, and it is the caller's or the release is forced.
      Another's claim makes it exit 3; no claim is no error. */
  lemma ReleaseIff(b: Board, me: string, path: Option<string>, force: bool, ttl: int)
    ensures var o, b' := ReleaseOutcome(b, me, path, force), Step(b, ReleaseEvent(me, path, force), ttl);
            if path.None? || path.value !in b then ExitCode(o) == 0 && b' == b && o != Released
            else if b[path.value].agent == me || force then ExitCode(o) == 0 && b' == b - {path.value} && o == Released
            else ExitCode(o) == 3 && b' == b
  {
  }

  /** Releasing all leaves exactly the others' claims. */
  lemma ReleaseAllIff(b: Board, me: string, ttl: int, k: string)
    ensures var b' := Step(b, ReleaseAllEvent(me), ttl);
            && (k in b' <==> k in b && b[k].agent != me)
            && (k in b' ==> b'[k] == b[k])
  {
  }

  // ---------- exclusivity ----------

  /** What may change a claim that agent holds at this path while it is young: the agent's own
      refresh or release, a steal, or a forced release. */
  predicate Entitled(e: Event, agent: string, path: string) {
    match e
    case ClaimEvent(me, p, _, force, _, _) => p == Some(path) && (me == agent || force)
    case ReleaseEvent(me, p, force) => p == Some(path) && (me == agent || force)
    case ReleaseAllEvent(me) => me == agent
  }

  /** One step: a young claim's record changes only by an entitled event; a plain claim by
      anyone else is refused with exit code 3 and changes nothing at all. */
  lemma YoungClaimIsSafe(b: Board, e: Event, path: string, ttl: int, now: int)
    requires path in b && !Stale(b[path], now, ttl)
    requires e.ClaimEvent? ==> e.now <= now
    requires !Entitled(e, b[path].agent, path)
    ensures path in Step(b, e, ttl) && Step(b, e, ttl)[path] == b[path]
    ensures e.ClaimEvent? && e.path == Some(path) ==>
              Step(b, e, ttl) == b && ExitCode(ClaimOutcome(b, e.me, e.path, e.force, e.now, ttl)) == 3
  {
  }

  function Run(b: Board, es: seq<Event>, ttl: int): Board
    decreases |es|
  {
    if es == [] then b else Step(Run(b, es[..|es| - 1], ttl), es[|es| - 1], ttl)
  }

  /** Whole runs: with any interleaving of agents, as long as the clock has not passed the
      claim's time to live and no entitled event occurs, the claim stands as it was. */
  lemma {:induction false} ClaimStands(b: Board, es: seq<Event>, path: string, ttl: int, now: int)
    requires path in b && !Stale(b[path], now, ttl)
    requires forall i :: 0 <= i < |es| ==> (es[i].ClaimEvent? ==> es[i].now <= now)
    requires forall i :: 0 <= i < |es| ==> !Entitled(es[i], b[path].agent, path)
    ensures path in Run(b, es, ttl) && Run(b, es, ttl)[path] == b[path]
    decreases |es|
  {
    if es != [] {
      var n := |es| - 1;
      ClaimStands(b, es[..n], path, ttl, now);
      YoungClaimIsSafe(Run(b, es[..n], ttl), es[n], path, ttl, now);
    }
  }

  /** Mutual exclusion: when one agent's claim succeeded and another agent's plain claim on the
      same PR succeeds before the first has expired, somebody entitled acted in between. */
  lemma {:induction false} NoTwoHolders(b: Board, first: Event, es: seq<Event>, second: Event, ttl: int)
    requires first.ClaimEvent? && second.ClaimEvent? && first.path.Some?
    requires second.path == first.path && first.me != second.me && !second.force
    requires ExitCode(ClaimOutcome(b, first.me, first.path, first.force, first.now, ttl)) == 0
    requires second.now - first.now < ttl
    requires forall i :: 0 <= i < |es| ==> (es[i].ClaimEvent? ==> es[i].now <= second.now)
    requires ExitCode(ClaimOutcome(Run(Step(b, first, ttl), es, ttl), second.me, second.path, false, second.now, ttl)) == 0
    ensures exists k :: 0 <= k < |es| && Entitled(es[k], first.me, first.path.value)
  {
    var f1 := Step(b, first, ttl);
    if forall k :: 0 <= k < |es| ==> !Entitled(es[k], first.me, first.path.value) {
      ClaimStands(f1, es, first.path.value, ttl, second.now);
    }
  }
}
