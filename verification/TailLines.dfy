/** The backwards chunked tail reader of the audit log (internal/comms/json.go, tailLines). */
module TailLines {
  import opened Text

  const NL := '\n'

  function Count(s: string): nat {
    if s == "" then 0 else (if s[0] == NL then 1 else 0) + Count(s[1..])
  }

  function LastN(lines: seq<string>, n: nat): seq<string> {
    if |lines| > n then lines[|lines| - n..] else lines
  }

  /** The simple reading: split the whole newline-trimmed file and keep the last n lines. */
  function Simple(file: string, n: nat): seq<string> {
    LastN(Split(TrimRightChar(file, NL), NL), n)
  }

  /** How many newlines the file ends in. */
  function Trailing(file: string): nat {
    |file| - |TrimRightChar(file, NL)|
  }

  /** Where reading backwards from pos stops: at the start, or once more than n newlines are in. */
  function StopAt(file: string, n: nat, chunk: nat, pos: nat): (p: nat)
    requires chunk >= 1 && pos <= |file|
    ensures p <= pos && (p == 0 || Count(file[p..]) > n)
    decreases pos
  {
    if pos == 0 || Count(file[pos..]) > n then pos
    else StopAt(file, n, chunk, if chunk > pos then 0 else pos - chunk)
  }

  /** How many newlines have been read by then. */
  function NewlinesRead(file: string, n: nat, chunk: nat): nat
    requires chunk >= 1
  {
    Count(file[StopAt(file, n, chunk, |file|)..])
  }

  /** Everything after the first newline, or all of it if there is none. */
  function DropPartial(buf: string): string {
    match IndexOf(buf, NL)
    case None => buf
    case Some(i) => buf[i + 1..]
  }

  /** tailLines on a non-empty file with n >= 1. */
  function Tail(file: string, n: nat, chunk: nat): seq<string>
    requires chunk >= 1
  {
    var p := StopAt(file, n, chunk, |file|);
    var buf := file[p..];
    var kept := if p > 0 || Count(buf) > n then DropPartial(buf) else buf;
    LastN(Split(TrimRightChar(kept, NL), NL), n)
  }

  lemma StopsEarlier(file: string, n: nat, chunk: nat, pos: nat)
    requires chunk >= 1 && 0 < pos <= |file| && Count(file[pos..]) <= n
    ensures StopAt(file, n, chunk, pos) == StopAt(file, n, chunk, if chunk > pos then 0 else pos - chunk)
  {
  }

  lemma ReadChunk(file: string, from: nat, pos: nat)
    requires from <= pos <= |file|
    ensures file[from..pos] + file[pos..] == file[from..]
  {
  }

  /** The loop that reads chunks from the end until enough newlines are in. */
  method ReadBackwards(file: string, n: int, chunkSize: nat) returns (pos: nat, buf: string)
    requires n >= 0 && chunkSize >= 1
    ensures pos == StopAt(file, n, chunkSize, |file|) && buf == file[pos..]
  {
    buf := "";
    pos := |file|;
    while pos > 0 && Count(buf) <= n
      invariant pos <= |file| && buf == file[pos..]
      invariant StopAt(file, n, chunkSize, pos) == StopAt(file, n, chunkSize, |file|)
    {
      var read := chunkSize;
      if read > pos {
        read := pos;
      }
      StopsEarlier(file, n, chunkSize, pos);
      ReadChunk(file, pos - read, pos);
      var chunk := file[pos - read..pos];
      pos, buf := pos - read, chunk + buf;
    }
  }

  /** tailLines */
  method ReadTail(file: string, n: int, chunkSize: nat) returns (lines: seq<string>)
    requires chunkSize >= 1
    ensures n <= 0 || file == "" ==> lines == []
    ensures n > 0 && file != "" ==> lines == Tail(file, n, chunkSize)
  {
    if n <= 0 {
      return [];
    }
    if |file| == 0 {
      return [];
    }
    var pos, buf := ReadBackwards(file, n, chunkSize);
    if pos > 0 || Count(buf) > n {
      var i := IndexOf(buf, NL);
      if i.Some? {
        buf := buf[i.value + 1..];
      }
    }
    lines := KeepLast(Split(TrimRightChar(buf, NL), NL), n);
  }

  method KeepLast(all: seq<string>, n: nat) returns (lines: seq<string>)
    ensures lines == LastN(all, n)
  {
    lines := all;
    if |lines| > n {
      lines := lines[|lines| - n..];
    }
  }

  // ---------- counting lines ----------

  lemma {:induction false} CountConcat(a: string, b: string)
    ensures Count(a + b) == Count(a) + Count(b)
  {
    if a == "" {
      assert a + b == b;
    } else {
      assert (a + b)[1..] == a[1..] + b;
      CountConcat(a[1..], b);
    }
  }

  lemma {:induction false} CountLines(s: string)
    ensures |Split(s, NL)| == Count(s) + 1
  {
    if s != "" {
      CountLines(s[1..]);
    }
  }

  lemma {:induction false} CountAllNewlines(s: string)
    requires forall i :: 0 <= i < |s| ==> s[i] == NL
    ensures Count(s) == |s|
  {
    if s != "" {
      CountAllNewlines(s[1..]);
    }
  }

  lemma {:induction false} CountNone(s: string)
    requires NL !in s
    ensures Count(s) == 0
  {
    if s != "" {
      CountNone(s[1..]);
    }
  }

  /** Trimming the end of a suffix is taking the suffix of the trimmed file. */
  lemma {:induction false} TrimSuffix(file: string, q: nat)
    requires q <= |file|
    ensures var t := TrimRightChar(file, NL);
            TrimRightChar(file[q..], NL) == if q <= |t| then t[q..] else ""
    decreases |file|
  {
    if file != "" && file[|file| - 1] == NL {
      var f := file[..|file| - 1];
      if q < |file| {
        assert file[q..][..|file[q..]| - 1] == f[q..];
        TrimSuffix(f, q);
      }
    } else if q < |file| {
      assert file[q..][|file| - q - 1] == file[|file| - 1];
    }
  }

  /** The last line of a trimmed, non-empty file is not empty. */
  lemma {:induction false} LastLineNonEmpty(s: string)
    requires s != "" && s[|s| - 1] != NL
    ensures var l := Split(s, NL); l[|l| - 1] != ""
  {
    if |s| > 1 {
      LastLineNonEmpty(s[1..]);
    }
  }

  lemma LastNOfTail(a: seq<string>, b: seq<string>, n: nat)
    requires |a| >= 1
    ensures LastN(a + b, n) == LastN(b, n) <==> |b| >= n
  {
    if |b| >= n {
      assert LastN(a + b, n) == LastN(b, n);
    }
  }

  // ---------- exactly when the two readings agree ----------

  /** The chunked tail is the simple one exactly when the file has no more than n newlines, or
      nothing else, or enough newlines were read to make up for those at the end. */
  lemma TailIsSimpleIff(file: string, n: nat, chunk: nat)
    requires n >= 1 && chunk >= 1 && file != ""
    ensures Tail(file, n, chunk) == Simple(file, n) <==>
              || Count(file) <= n
              || TrimRightChar(file, NL) == ""
              || NewlinesRead(file, n, chunk) >= n + Trailing(file)
  {
    var p := StopAt(file, n, chunk, |file|);
    if Count(file[p..]) <= n {
      assert p == 0 && file[0..] == file;
    } else {
      CountSuffix(file, p);
      DroppedTail(file, n, chunk, p);
    }
  }

  lemma CountSuffix(file: string, p: nat)
    requires p <= |file|
    ensures Count(file[p..]) <= Count(file)
  {
    assert file == file[..p] + file[p..];
    CountConcat(file[..p], file[p..]);
  }

  lemma DroppedTail(file: string, n: nat, chunk: nat, p: nat)
    requires n >= 1 && chunk >= 1 && p == StopAt(file, n, chunk, |file|) && Count(file[p..]) > n
    ensures Tail(file, n, chunk) == Simple(file, n) <==>
              TrimRightChar(file, NL) == "" || NewlinesRead(file, n, chunk) >= n + Trailing(file)
  {
    var buf := file[p..];
    if IndexOf(buf, NL).None? {
      CountNone(buf);
      assert false;
    } else {
      var i := IndexOf(buf, NL).value;
      SliceTwice(file, p, i);
      DroppedAt(file, n, p, i);
    }
  }

  lemma SliceTwice(file: string, p: nat, i: nat)
    requires p <= |file| && i < |file| - p
    ensures file[p..][i] == file[p + i] && file[p..][..i] == file[p..p + i] && file[p..][i + 1..] == file[p + i + 1..]
  {
  }

  /** The case that lines were dropped, at the newline before position q. */
  lemma DroppedAt(file: string, n: nat, p: nat, i: nat)
    requires n >= 1 && p <= |file| && i < |file| - p && file[p + i] == NL && NL !in file[p..p + i]
    requires Count(file[p..]) > n
    ensures LastN(Split(TrimRightChar(file[p + i + 1..], NL), NL), n) == Simple(file, n) <==>
              TrimRightChar(file, NL) == "" || Count(file[p..]) >= n + Trailing(file)
  {
    CountFrom(file, p, i);
    DroppedFrom(file, n, p + i + 1);
  }

  lemma DroppedFrom(file: string, n: nat, q: nat)
    requires n >= 1 && 0 < q <= |file| && file[q - 1] == NL
    ensures LastN(Split(TrimRightChar(file[q..], NL), NL), n) == Simple(file, n) <==>
              TrimRightChar(file, NL) == "" || 1 + Count(file[q..]) >= n + Trailing(file)
  {
    TrimSuffix(file, q);
    if q <= |TrimRightChar(file, NL)| {
      DroppedInside(file, n, q);
    } else {
      DroppedInTrailing(file, n, q);
    }
  }

  lemma CountFrom(file: string, p: nat, i: nat)
    requires p <= |file| && i < |file| - p && file[p + i] == NL && NL !in file[p..p + i]
    ensures Count(file[p..]) == 1 + Count(file[p + i + 1..])
  {
    var before, after := file[p..p + i], file[p + i + 1..];
    assert file[p..] == before + ([NL] + after);
    CountConcat(before, [NL] + after);
    CountNone(before);
    assert ([NL] + after)[1..] == after;
  }

  lemma DroppedInside(file: string, n: nat, q: nat)
    requires n >= 1 && 0 < q <= |TrimRightChar(file, NL)| && file[q - 1] == NL
    ensures LastN(Split(TrimRightChar(file, NL)[q..], NL), n) == Simple(file, n) <==> 1 + Count(file[q..]) >= n + Trailing(file)
  {
    SuffixOfLines(TrimRightChar(file, NL), q, n);
    CountToTheEnd(file, q);
  }

  lemma SuffixOfLines(t: string, q: nat, n: nat)
    requires 0 < q <= |t| && t[q - 1] == NL
    ensures LastN(Split(t[q..], NL), n) == LastN(Split(t, NL), n) <==> Count(t[q..]) + 1 >= n
  {
    CutAt(t, q);
    LinesAfter(t[..q - 1], t[q..], n);
  }

  lemma CutAt(t: string, q: nat)
    requires 0 < q <= |t| && t[q - 1] == NL
    ensures t[..q - 1] + [NL] + t[q..] == t
  {
  }

  lemma LinesAfter(a: string, b: string, n: nat)
    ensures LastN(Split(b, NL), n) == LastN(Split(a + [NL] + b, NL), n) <==> Count(b) + 1 >= n
  {
    SplitAt(a, NL, b);
    LastNOfTail(Split(a, NL), Split(b, NL), n);
    CountLines(b);
  }

  lemma CountToTheEnd(file: string, q: nat)
    requires q <= |TrimRightChar(file, NL)|
    ensures Count(file[q..]) == Count(TrimRightChar(file, NL)[q..]) + Trailing(file)
  {
    var t := TrimRightChar(file, NL);
    assert file[q..] == t[q..] + file[|t|..];
    CountConcat(t[q..], file[|t|..]);
    CountAllNewlines(file[|t|..]);
  }

  lemma DroppedInTrailing(file: string, n: nat, q: nat)
    requires n >= 1 && |TrimRightChar(file, NL)| < q <= |file|
    ensures LastN(Split("", NL), n) == Simple(file, n) <==>
              TrimRightChar(file, NL) == "" || 1 + Count(file[q..]) >= n + Trailing(file)
  {
    var t := TrimRightChar(file, NL);
    CountAllNewlines(file[q..]);
    if t != "" {
      LastLineNonEmpty(t);
    }
  }

  /** The promise for any file that does not end in two newlines, any n and any chunk size. */
  lemma TailIsSimple(file: string, n: nat, chunk: nat)
    requires n >= 1 && chunk >= 1 && file != "" && Trailing(file) <= 1
    ensures Tail(file, n, chunk) == Simple(file, n)
  {
    TailIsSimpleIff(file, n, chunk);
    var p := StopAt(file, n, chunk, |file|);
    assert p == 0 ==> file[p..] == file;
  }

  /** Reading byte by byte stops right after the n+1st newline from the end. */
  lemma {:induction false} BytewiseStops(file: string, n: nat, pos: nat)
    requires pos <= |file| && Count(file[pos..]) <= n < Count(file)
    ensures Count(file[StopAt(file, n, 1, pos)..]) == n + 1
    decreases pos
  {
    assert file[0..] == file;
    if pos > 0 {
      assert file[pos - 1..] == [file[pos - 1]] + file[pos..];
      if Count(file[pos - 1..]) <= n {
        BytewiseStops(file, n, pos - 1);
      }
    }
  }

  /** Independently of the chunk size, the two agree exactly for files that end in at most one
      newline, have at most n newlines, or consist of newlines. */
  lemma TailIsSimpleForAllChunksIff(file: string, n: nat)
    requires n >= 1 && file != ""
    ensures (forall chunk: nat :: chunk >= 1 ==> Tail(file, n, chunk) == Simple(file, n)) <==>
              Trailing(file) <= 1 || Count(file) <= n || TrimRightChar(file, NL) == ""
  {
    forall chunk: nat | chunk >= 1 && (Trailing(file) <= 1 || Count(file) <= n || TrimRightChar(file, NL) == "")
      ensures Tail(file, n, chunk) == Simple(file, n)
    {
      TailIsSimpleIff(file, n, chunk);
      if Trailing(file) <= 1 {
        TailIsSimple(file, n, chunk);
      }
    }
    TailIsSimpleIff(file, n, 1);
    if Count(file) > n {
      assert file[|file|..] == "";
      BytewiseStops(file, n, |file|);
    }
  }

  /** A file that breaks it: two lines and two newlines at the end, last line asked for. */
  lemma TailMayLoseLine()
    ensures Tail("a\nb\n\n", 1, 1) == [""] && Simple("a\nb\n\n", 1) == ["b"]
  {
    var f := "a\nb\n\n";
    assert f[5..] == "" && f[4..] == "\n" && f[3..] == "\n\n";
    assert TrimRightChar(f, NL) == "a\nb" by {
      assert f[..4] == "a\nb\n" && f[..4][..3] == "a\nb";
    }
    assert StopAt(f, 1, 1, 5) == 3 by {
      assert Count("\n\n") == 2 by { assert "\n\n"[1..] == "\n"; }
    }
    assert IndexOf("\n\n", NL) == Some(0);
    assert DropPartial(f[3..]) == "\n";
    assert Split("a\nb", NL) == ["a", "b"] by {
      SplitNoSep("a", NL);
      SplitNoSep("b", NL);
      SplitAt("a", NL, "b");
      assert "a" + [NL] + "b" == "a\nb";
    }
  }
}
