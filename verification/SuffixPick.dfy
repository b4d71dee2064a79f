/** Picking the file that shares the longest path suffix (internal/ghpr/backportcommit.go:275-315). */
module SuffixPick {
  import opened Text

  // ---------- shared segments ----------

  /** The last n segments of both paths agree. */
  predicate Agree(a: seq<string>, b: seq<string>, n: int) {
    0 <= n <= |a| && n <= |b| && a[|a| - n..] == b[|b| - n..]
  }

  function CommonSuffix(a: seq<string>, b: seq<string>): (n: nat)
    decreases |a|
  {
    if a == [] || b == [] || a[|a| - 1] != b[|b| - 1] then 0
    else CommonSuffix(a[..|a| - 1], b[..|b| - 1]) + 1
  }

  /** How many trailing path segments two paths share. */
  function Score(a: string, b: string): nat {
    CommonSuffix(Split(a, '/'), Split(b, '/'))
  }

  /** It is the largest number of trailing segments that agree: m of them agree exactly when m is
      not larger. */
  lemma {:induction false} CommonSuffixIsLongest(a: seq<string>, b: seq<string>, m: nat)
    ensures Agree(a, b, m) <==> m <= CommonSuffix(a, b)
    decreases |a|
  {
    if m == 0 {
      assert a[|a|..] == b[|b|..];
    } else if a != [] && b != [] {
      AgreeOneMore(a, b, m);
      CommonSuffixIsLongest(a[..|a| - 1], b[..|b| - 1], m - 1);
    }
  }

  /** The last m segments agree exactly when the last ones do and the m - 1 before them. */
  lemma AgreeOneMore(a: seq<string>, b: seq<string>, m: nat)
    requires a != [] && b != [] && m > 0
    ensures Agree(a, b, m) <==> a[|a| - 1] == b[|b| - 1] && Agree(a[..|a| - 1], b[..|b| - 1], m - 1)
  {
    if m <= |a| && m <= |b| {
      LastSegments(a, m);
      LastSegments(b, m);
    }
  }

  lemma LastSegments(a: seq<string>, m: nat)
    requires 0 < m <= |a|
    ensures var a' := a[..|a| - 1];
            && a[|a| - m..] == a'[|a'| - (m - 1)..] + [a[|a| - 1]]
            && a[|a| - m..][..m - 1] == a'[|a'| - (m - 1)..] && a[|a| - m..][m - 1] == a[|a| - 1]
  {
  }

  /** What two paths share once their last n segments are taken off. */
  function Remaining(a: seq<string>, b: seq<string>, n: nat): nat
    requires n <= |a| && n <= |b|
  {
    CommonSuffix(a[..|a| - n], b[..|b| - n])
  }

  lemma RemainingAll(a: seq<string>, b: seq<string>)
    ensures Remaining(a, b, 0) == CommonSuffix(a, b)
  {
    assert a[..|a|] == a && b[..|b|] == b;
  }

  lemma RemainingStep(a: seq<string>, b: seq<string>, n: nat)
    requires n < |a| && n < |b| && a[|a| - 1 - n] == b[|b| - 1 - n]
    ensures Remaining(a, b, n) == 1 + Remaining(a, b, n + 1)
  {
    DropLast(a, |a| - n);
    DropLast(b, |b| - n);
  }

  lemma DropLast(a: seq<string>, k: nat)
    requires 0 < k <= |a|
    ensures a[..k][k - 1] == a[k - 1] && a[..k][..k - 1] == a[..k - 1]
  {
  }

  lemma RemainingEnd(a: seq<string>, b: seq<string>, n: nat)
    requires n <= |a| && n <= |b| && (n == |a| || n == |b| || a[|a| - 1 - n] != b[|b| - 1 - n])
    ensures Remaining(a, b, n) == 0
  {
  }

  lemma ScoreIsLongest(a: string, b: string)
    ensures forall m: nat :: Agree(Split(a, '/'), Split(b, '/'), m) <==> m <= Score(a, b)
  {
    forall m: nat ensures Agree(Split(a, '/'), Split(b, '/'), m) <==> m <= Score(a, b) {
      CommonSuffixIsLongest(Split(a, '/'), Split(b, '/'), m);
    }
  }

  /** suffixSegmentMatch: the loop stops at the longest common suffix of segments. */
  method SuffixSegmentMatch(a: string, b: string) returns (n: nat)
    ensures n == Score(a, b)
    ensures forall m: nat :: Agree(Split(a, '/'), Split(b, '/'), m) <==> m <= n
  {
    var sa, sb := Split(a, '/'), Split(b, '/');
    n := 0;
    RemainingAll(sa, sb);
    while |sa| - n > 0 && |sb| - n > 0 && sa[|sa| - 1 - n] == sb[|sb| - 1 - n]
      invariant n <= |sa| && n <= |sb|
      invariant CommonSuffix(sa, sb) == n + Remaining(sa, sb, n)
      decreases |sa| - n
    {
      RemainingStep(sa, sb, n);
      n := n + 1;
    }
    RemainingEnd(sa, sb, n);
    ScoreIsLongest(a, b);
  }

  // ---------- the pick ----------

  /** The scores of the lines; an empty line is no candidate and has none. */
  function Scores(lines: seq<string>, mp: string): (sc: seq<int>)
    ensures |sc| == |lines|
  {
    seq(|lines|, i requires 0 <= i < |lines| => if lines[i] == "" then -1 else Score(lines[i], mp))
  }

  /** Position k alone has the best of the first i scores. */
  predicate Only(sc: seq<int>, i: nat, k: int, best: int) {
    0 <= k < i <= |sc| && sc[k] == best && forall j :: 0 <= j < i && j != k ==> sc[j] < best
  }

  /** A line that shares some segments with mp, and strictly more than every other candidate. */
  predicate Best(lines: seq<string>, mp: string, k: int) {
    0 <= k < |lines| && Scores(lines, mp)[k] > 0 && Only(Scores(lines, mp), |lines|, k, Scores(lines, mp)[k])
  }

  predicate Two(sc: seq<int>, i: nat, best: int) {
    i <= |sc| && exists k, l :: 0 <= k < l < i && sc[k] == best && sc[l] == best
  }

  predicate Bounded(sc: seq<int>, i: nat, best: int) {
    i <= |sc| && forall j :: 0 <= j < i ==> sc[j] <= best
  }

  /** What the loop knows after the first i lines: the best score, and either the only line that
      has it, or a text with a space in it because two lines have it or none has any. */
  ghost predicate Picked(lines: seq<string>, sc: seq<int>, i: nat, best: int, pick: string) {
    && |sc| == |lines| && Bounded(sc, i, best) && best >= 0
    && (if best == 0 then ' ' in pick || (pick == "" && Bounded(sc, i, -1))
        else (exists k :: Only(sc, i, k, best) && lines[k] == pick) || (' ' in pick && Two(sc, i, best)))
  }

  lemma Better(lines: seq<string>, sc: seq<int>, i: nat, best: int, pick: string)
    requires i < |sc| && Picked(lines, sc, i, best, pick) && sc[i] > best
    ensures Picked(lines, sc, i + 1, sc[i], lines[i])
  {
    assert Only(sc, i + 1, i, sc[i]);
  }

  lemma Tied(lines: seq<string>, sc: seq<int>, i: nat, best: int, pick: string)
    requires i < |sc| && Picked(lines, sc, i, best, pick) && sc[i] == best
    ensures Picked(lines, sc, i + 1, best, pick + " " + lines[i])
  {
    assert (pick + " " + lines[i])[|pick|] == ' ';
    if best > 0 {
      var k :| 0 <= k < i && sc[k] == best;
      assert Two(sc, i + 1, best);
    }
  }

  lemma Lower(lines: seq<string>, sc: seq<int>, i: nat, best: int, pick: string)
    requires i < |sc| && Picked(lines, sc, i, best, pick) && sc[i] < best
    ensures Picked(lines, sc, i + 1, best, pick)
  {
    if best > 0 && exists k :: Only(sc, i, k, best) && lines[k] == pick {
      var k :| Only(sc, i, k, best) && lines[k] == pick;
      assert Only(sc, i + 1, k, best);
    }
  }

  lemma Skipped(lines: seq<string>, sc: seq<int>, i: nat, best: int, pick: string)
    requires i < |sc| && Picked(lines, sc, i, best, pick) && sc[i] == -1
    ensures Picked(lines, sc, i + 1, best, pick)
  {
    if best > 0 {
      Lower(lines, sc, i, best, pick);
    }
  }

  lemma PickedAtEnd(lines: seq<string>, mp: string, best: int, pick: string)
    requires Picked(lines, Scores(lines, mp), |lines|, best, pick)
    ensures forall k :: Best(lines, mp, k) ==> pick == lines[k]
    ensures ' ' !in pick && pick != "" ==> exists k :: Best(lines, mp, k) && lines[k] == pick
  {
    var sc := Scores(lines, mp);
    forall k | Best(lines, mp, k) ensures pick == lines[k] {
      assert sc[k] <= best;
    }
    if ' ' !in pick && pick != "" {
      var k :| Only(sc, |lines|, k, best) && lines[k] == pick;
      assert Best(lines, mp, k);
    }
  }

  lemma ContainsSpace(s: string)
    ensures Contains(s, " ") <==> ' ' in s
  {
    if ' ' in s {
      var i :| 0 <= i < |s| && s[i] == ' ';
      assert s[i..][..1] == " ";
    }
    if Contains(s, " ") {
      var i :| 0 <= i <= |s| && HasPrefix(s[i..], " ");
      assert s[i..][..1][0] == s[i];
    }
  }

  /** Line k is a candidate and shares m segments with mp, some at least, and no other candidate shares as
      many. */
  ghost predicate Alone(lines: seq<string>, mp: string, k: int, m: nat) {
    && 0 <= k < |lines| && m > 0 && lines[k] != "" && Agree(Split(lines[k], '/'), Split(mp, '/'), m)
    && forall j :: 0 <= j < |lines| && j != k && lines[j] != "" ==> !Agree(Split(lines[j], '/'), Split(mp, '/'), m)
  }

  lemma BestIff(lines: seq<string>, mp: string, k: int)
    ensures Best(lines, mp, k) <==> exists m :: Alone(lines, mp, k, m)
  {
    var sc := Scores(lines, mp);
    forall j | 0 <= j < |lines| && lines[j] != ""
      ensures forall m: nat :: Agree(Split(lines[j], '/'), Split(mp, '/'), m) <==> m <= sc[j]
    {
      ScoreIsLongest(lines[j], mp);
    }
    if Best(lines, mp, k) {
      assert Alone(lines, mp, k, sc[k]);
    }
    if exists m :: Alone(lines, mp, k, m) {
      var m: nat :| Alone(lines, mp, k, m);
      forall j | 0 <= j < |lines| && j != k ensures sc[j] < sc[k] {
        if lines[j] != "" {
          assert sc[j] < m;
        }
      }
    }
  }

  /** pickBestSuffixMatch, for every list of candidates and every path: the line that alone shares
      the most segments, unless it has a space in it; otherwise nothing. */
  method PickBestSuffixMatch(candidatesOut: string, mp: string) returns (r: string)
    ensures var lines := Split(candidatesOut, '\n');
            && (forall k, m :: Alone(lines, mp, k, m) ==> r == if ' ' in lines[k] then "" else lines[k])
            && (r != "" ==> exists k, m :: Alone(lines, mp, k, m) && lines[k] == r)
  {
    var best: int, pick := 0, "";
    var lines := Split(candidatesOut, '\n');
    ghost var sc := Scores(lines, mp);
    for i := 0 to |lines|
      invariant Picked(lines, sc, i, best, pick)
    {
      var c := lines[i];
      if c == "" {
        Skipped(lines, sc, i, best, pick);
        continue;
      }
      var s := SuffixSegmentMatch(c, mp);
      if s > best {
        Better(lines, sc, i, best, pick);
        best := s;
        pick := c;
      } else if s == best {
        Tied(lines, sc, i, best, pick);
        pick := pick + " " + c;
      } else {
        Lower(lines, sc, i, best, pick);
      }
    }
    PickedAtEnd(lines, mp, best, pick);
    forall k ensures Best(lines, mp, k) <==> exists m :: Alone(lines, mp, k, m) {
      BestIff(lines, mp, k);
    }
    ContainsSpace(pick);
    if Contains(pick, " ") {
      return "";
    }
    return pick;
  }
}
