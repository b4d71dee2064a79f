/** Showing a file around the lines that hold a symbol, as `grep -n -A` does
    (internal/ghpr/showbranchfile.go:109-162). */
module ContextBlocks {
  import opened Text

  /** What is printed: a numbered line with its marker, the separator, or the whole file. */
  datatype Out = Row(num: int, marker: char, text: string) | Separator | Whole(text: string)

  // ---------- the specification ----------

  predicate Matches(lines: seq<string>, symbol: string, i: int) {
    0 <= i < |lines| && Contains(lines[i], symbol)
  }

  /** Line j is at most context lines after some match, or a match itself. */
  predicate Near(lines: seq<string>, symbol: string, context: int, j: int) {
    exists i :: 0 <= i <= j && Matches(lines, symbol, i) && j - i <= context
  }

  function RowOf(lines: seq<string>, symbol: string, j: int): Out
    requires 0 <= j < |lines|
  {
    Row(j + 1, if Matches(lines, symbol, j) then ':' else '-', lines[j])
  }

  /** The cells of a listing in order, with a separator wherever cells were left out between two. */
  function Merge(cells: seq<Option<Out>>): seq<Out>
    decreases |cells|
  {
    if cells == [] then []
    else
      var n := |cells| - 1;
      var before := Merge(cells[..n]);
      match cells[n]
      case None => before
      case Some(row) => if before != [] && cells[n - 1].None? then before + [Separator, row] else before + [row]
  }

  /** The first n lines: the row of a near line, nothing for the others. */
  function Cells(lines: seq<string>, symbol: string, context: int, n: nat): seq<Option<Out>>
    requires n <= |lines|
  {
    seq(n, j requires 0 <= j < n => if Near(lines, symbol, context, j) then Some(RowOf(lines, symbol, j)) else None)
  }

  function Blocks(lines: seq<string>, symbol: string, context: int, n: nat): seq<Out>
    requires n <= |lines|
  {
    Merge(Cells(lines, symbol, context, n))
  }

  lemma BlocksStep(lines: seq<string>, symbol: string, context: int, n: nat)
    requires 0 < n <= |lines|
    ensures var before := Blocks(lines, symbol, context, n - 1);
            Blocks(lines, symbol, context, n) ==
              if !Near(lines, symbol, context, n - 1) then before
              else if before != [] && !Near(lines, symbol, context, n - 2) then before + [Separator, RowOf(lines, symbol, n - 1)]
              else before + [RowOf(lines, symbol, n - 1)]
  {
    var cells := Cells(lines, symbol, context, n);
    assert cells[..n - 1] == Cells(lines, symbol, context, n - 1);
  }

  /** With a negative context nothing is near; the loop still prints separators, one for each
      match that follows a match far enough into the file. */
  function LastMatch(lines: seq<string>, symbol: string, n: nat): (i: int)
    requires n <= |lines|
    ensures -1 <= i < n
    ensures i >= 0 ==> Matches(lines, symbol, i)
    ensures forall k :: i < k < n ==> !Matches(lines, symbol, k)
  {
    if n == 0 then -1 else if Matches(lines, symbol, n - 1) then n - 1 else LastMatch(lines, symbol, n - 1)
  }

  function Separators(lines: seq<string>, symbol: string, context: int, n: nat): seq<Out>
    requires n <= |lines|
  {
    if n == 0 then []
    else
      var before := Separators(lines, symbol, context, n - 1);
      var last := LastMatch(lines, symbol, n - 1);
      if Matches(lines, symbol, n - 1) && last >= 0 && last + context >= 0 then before + [Separator] else before
  }

  function Shown(lines: seq<string>, symbol: string, context: int): seq<Out> {
    if context >= 0 then Blocks(lines, symbol, context, |lines|) else Separators(lines, symbol, context, |lines|)
  }

  // ---------- the loops ----------

  /** The first loop: which lines match. */
  method FindMatches(lines: seq<string>, symbol: string) returns (matched: array<bool>, found: bool)
    ensures fresh(matched) && matched.Length == |lines|
    ensures forall i :: 0 <= i < |lines| ==> matched[i] == Matches(lines, symbol, i)
    ensures found <==> exists i :: Matches(lines, symbol, i)
  {
    matched := new bool[|lines|](_ => false);
    found := false;
    for i := 0 to |lines|
      invariant forall k :: 0 <= k < i ==> matched[k] == Matches(lines, symbol, k)
      invariant forall k :: i <= k < |lines| ==> !matched[k]
      invariant found <==> exists k :: 0 <= k < i && Matches(lines, symbol, k)
    {
      if Contains(lines[i], symbol) {
        matched[i] := true;
        found := true;
      }
    }
  }

  /** How far the matches before i reach. */
  ghost predicate Reach(lines: seq<string>, symbol: string, context: int, i: int, printedUpTo: int) {
    && -1 <= printedUpTo < |lines|
    && (forall k :: 0 <= k < i && Matches(lines, symbol, k) ==> printedUpTo >= k + context || printedUpTo == |lines| - 1)
    && (printedUpTo >= 0 ==> exists k :: 0 <= k < i && Matches(lines, symbol, k) && k <= printedUpTo <= k + context)
  }

  /** The lines from where the earlier matches reach up to the next one are not near any match. */
  lemma SkippedLines(lines: seq<string>, symbol: string, context: int, i: int, printedUpTo: int, n: nat)
    requires Reach(lines, symbol, context, i, printedUpTo) && printedUpTo + 1 <= n <= i <= |lines|
    ensures Blocks(lines, symbol, context, n) == Blocks(lines, symbol, context, printedUpTo + 1)
  {
    if n > printedUpTo + 1 {
      SkippedLines(lines, symbol, context, i, printedUpTo, n - 1);
      BlocksStep(lines, symbol, context, n);
      assert !Near(lines, symbol, context, n - 1);
    }
  }

  lemma NearInside(lines: seq<string>, symbol: string, context: int, i: int, j: int)
    requires Matches(lines, symbol, i) && i <= j <= i + context
    ensures Near(lines, symbol, context, j)
  {
  }

  /** There is output before line n as soon as some earlier line is near, and only then. */
  lemma {:induction false} SomeOutput(cells: seq<Option<Out>>)
    ensures Merge(cells) != [] <==> exists j :: 0 <= j < |cells| && cells[j].Some?
    decreases |cells|
  {
    if cells != [] {
      SomeOutput(cells[..|cells| - 1]);
    }
  }

  lemma NextRow(lines: seq<string>, symbol: string, context: int, i: int, j: int)
    requires Matches(lines, symbol, i) && i < j <= i + context && j < |lines|
    ensures Blocks(lines, symbol, context, j + 1) == Blocks(lines, symbol, context, j) + [RowOf(lines, symbol, j)]
  {
    NearInside(lines, symbol, context, i, j);
    NearInside(lines, symbol, context, i, j - 1);
    BlocksStep(lines, symbol, context, j + 1);
  }

  function AfterGap(out: seq<Out>, i: int, printedUpTo: int): seq<Out> {
    out + if printedUpTo >= 0 && i > printedUpTo + 1 then [Separator] else []
  }

  /** The first row of a match has a separator before it exactly when lines were skipped. */
  lemma FirstRow(lines: seq<string>, symbol: string, context: int, i: nat, printedUpTo: int, from: int)
    requires context >= 0 && Matches(lines, symbol, i) && Reach(lines, symbol, context, i, printedUpTo)
    requires from == (if printedUpTo + 1 > i then printedUpTo + 1 else i) && from < |lines| && from <= i + context
    ensures Blocks(lines, symbol, context, from + 1) ==
              AfterGap(Blocks(lines, symbol, context, printedUpTo + 1), i, printedUpTo) + [RowOf(lines, symbol, from)]
  {
    NearInside(lines, symbol, context, i, from);
    BlocksStep(lines, symbol, context, from + 1);
    OutputSoFar(lines, symbol, context, i, printedUpTo);
    if printedUpTo + 1 < i {
      SkippedLines(lines, symbol, context, i, printedUpTo, i);
      GapBefore(lines, symbol, context, i, printedUpTo);
    }
  }

  lemma GapBefore(lines: seq<string>, symbol: string, context: int, i: nat, printedUpTo: int)
    requires Reach(lines, symbol, context, i, printedUpTo) && printedUpTo + 1 < i <= |lines|
    ensures !Near(lines, symbol, context, i - 1)
  {
  }

  /** The last line reached is near, and there is output exactly when there is such a line. */
  lemma OutputSoFar(lines: seq<string>, symbol: string, context: int, i: nat, printedUpTo: int)
    requires context >= 0 && Reach(lines, symbol, context, i, printedUpTo)
    ensures printedUpTo >= 0 ==> Near(lines, symbol, context, printedUpTo)
    ensures Blocks(lines, symbol, context, printedUpTo + 1) != [] <==> printedUpTo >= 0
  {
    var cells := Cells(lines, symbol, context, printedUpTo + 1);
    SomeOutput(cells);
    if printedUpTo >= 0 {
      assert cells[printedUpTo].Some?;
    }
  }

  /** The rows of lines from up to, and without, upTo. */
  function Rows(lines: seq<string>, symbol: string, from: nat, upTo: int): seq<Out>
    requires upTo <= |lines|
    decreases upTo
  {
    if upTo <= from then [] else Rows(lines, symbol, from, upTo - 1) + [RowOf(lines, symbol, upTo - 1)]
  }

  /** The rows of one match extend the blocks as far as it reaches. */
  lemma {:induction false} RowsExtendBlocks(lines: seq<string>, symbol: string, context: int, i: nat, from: int, upTo: int, start: seq<Out>)
    requires Matches(lines, symbol, i) && i <= from < upTo <= |lines| && upTo <= i + context + 1
    requires Blocks(lines, symbol, context, from + 1) == start + [RowOf(lines, symbol, from)]
    ensures start + Rows(lines, symbol, from, upTo) == Blocks(lines, symbol, context, upTo)
    decreases upTo
  {
    if upTo == from + 1 {
      assert Rows(lines, symbol, from, upTo) == [RowOf(lines, symbol, from)];
    } else {
      RowsExtendBlocks(lines, symbol, context, i, from, upTo - 1, start);
      NextRow(lines, symbol, context, i, upTo - 1);
    }
  }

  /** What the loop over the matches keeps: for a context that is not negative, the blocks as far
      as the matches reach; otherwise the separators. */
  ghost predicate Printed(lines: seq<string>, symbol: string, context: int, i: nat, printedUpTo: int, out: seq<Out>)
    requires i <= |lines|
  {
    if context >= 0 then
      Reach(lines, symbol, context, i, printedUpTo) && out == Blocks(lines, symbol, context, printedUpTo + 1)
    else
      var last := LastMatch(lines, symbol, i);
      && printedUpTo == (if last >= 0 && last + context >= 0 then last + context else -1)
      && out == Separators(lines, symbol, context, i)
  }

  lemma NoMatchKeeps(lines: seq<string>, symbol: string, context: int, i: nat, printedUpTo: int, out: seq<Out>)
    requires i < |lines| && Printed(lines, symbol, context, i, printedUpTo, out) && !Matches(lines, symbol, i)
    ensures Printed(lines, symbol, context, i + 1, printedUpTo, out)
  {
  }

  lemma MatchExtends(lines: seq<string>, symbol: string, context: int, i: nat, printedUpTo: int, out: seq<Out>,
                     end: int, from: nat)
    requires i < |lines| && Printed(lines, symbol, context, i, printedUpTo, out) && Matches(lines, symbol, i)
    requires end == if i + context >= |lines| then |lines| - 1 else i + context
    requires from == if printedUpTo + 1 > i then printedUpTo + 1 else i
    ensures Printed(lines, symbol, context, i + 1, if end > printedUpTo then end else printedUpTo,
                    AfterGap(out, i, printedUpTo) + Rows(lines, symbol, from, end + 1))
  {
    if context >= 0 {
      ReachesFurther(lines, symbol, context, i, printedUpTo, end);
      if from <= end {
        FirstRow(lines, symbol, context, i, printedUpTo, from);
        RowsExtendBlocks(lines, symbol, context, i, from, end + 1, AfterGap(out, i, printedUpTo));
      } else {
        assert AfterGap(out, i, printedUpTo) + [] == out;
      }
    } else {
      NegativeMatch(lines, symbol, context, i, printedUpTo, out, from);
    }
  }

  lemma ReachesFurther(lines: seq<string>, symbol: string, context: int, i: nat, printedUpTo: int, end: int)
    requires context >= 0 && i < |lines| && Reach(lines, symbol, context, i, printedUpTo) && Matches(lines, symbol, i)
    requires end == if i + context >= |lines| then |lines| - 1 else i + context
    ensures Reach(lines, symbol, context, i + 1, if end > printedUpTo then end else printedUpTo)
  {
  }

  lemma NegativeMatch(lines: seq<string>, symbol: string, context: int, i: nat, printedUpTo: int, out: seq<Out>, from: nat)
    requires context < 0 && i < |lines| && Printed(lines, symbol, context, i, printedUpTo, out) && Matches(lines, symbol, i)
    requires from == if printedUpTo + 1 > i then printedUpTo + 1 else i
    ensures Printed(lines, symbol, context, i + 1, if i + context > printedUpTo then i + context else printedUpTo,
                    AfterGap(out, i, printedUpTo) + Rows(lines, symbol, from, i + context + 1))
  {
    assert Rows(lines, symbol, from, i + context + 1) == [];
    assert AfterGap(out, i, printedUpTo) + [] == AfterGap(out, i, printedUpTo);
    assert out + [] == out;
  }

  lemma PrintedAtEnd(lines: seq<string>, symbol: string, context: int, printedUpTo: int, out: seq<Out>)
    requires Printed(lines, symbol, context, |lines|, printedUpTo, out)
    ensures out == Shown(lines, symbol, context)
  {
    if context >= 0 {
      SkippedLines(lines, symbol, context, |lines|, printedUpTo, |lines|);
    }
  }

  /** The innermost loop: the rows of lines from to end. */
  method PrintRows(lines: seq<string>, symbol: string, matched: array<bool>, from: nat, end: int, before: seq<Out>)
    returns (out: seq<Out>)
    requires matched.Length == |lines| && end < |lines| && from <= |lines|
    requires forall i :: 0 <= i < |lines| ==> matched[i] == Matches(lines, symbol, i)
    ensures out == before + Rows(lines, symbol, from, end + 1)
  {
    out := before;
    var j := from;
    while j <= end
      invariant from <= j <= (if end + 1 > from then end + 1 else from)
      invariant j <= |lines| && out == before + Rows(lines, symbol, from, j)
    {
      out := out + [Row(j + 1, if matched[j] then ':' else '-', lines[j])];
      j := j + 1;
    }
  }

  /** The loop over the matches. */
  method PrintBlocks(lines: seq<string>, symbol: string, matched: array<bool>, context: int) returns (out: seq<Out>)
    requires matched.Length == |lines|
    requires forall i :: 0 <= i < |lines| ==> matched[i] == Matches(lines, symbol, i)
    ensures out == Shown(lines, symbol, context)
  {
    out := [];
    var printedUpTo := -1;
    for i := 0 to |lines|
      invariant -1 <= printedUpTo && Printed(lines, symbol, context, i, printedUpTo, out)
    {
      if !matched[i] {
        NoMatchKeeps(lines, symbol, context, i, printedUpTo, out);
        continue;
      }
      var end := i + context;
      if end >= |lines| {
        end := |lines| - 1;
      }
      var from := i;
      if printedUpTo + 1 > from {
        from := printedUpTo + 1;
      }
      MatchExtends(lines, symbol, context, i, printedUpTo, out, end, from);
      if printedUpTo >= 0 && i > printedUpTo + 1 {
        out := out + [Separator];
      } else {
        assert out + [] == out;
      }
      out := PrintRows(lines, symbol, matched, from, end, out);
      if end > printedUpTo {
        printedUpTo := end;
      }
    }
    PrintedAtEnd(lines, symbol, context, printedUpTo, out);
  }

  predicate EndsWithNewline(s: string) {
    s != "" && s[|s| - 1] == '\n'
  }

  /** RunShowBranchFile after the file was fetched: exit code and output. */
  method Show(content: string, symbol: string, context: int) returns (code: int, out: seq<Out>)
    ensures symbol == "" ==>
              code == 0 && out == [Whole(if content != "" && content[|content| - 1] == '\n' then content else content + "\n")]
    ensures symbol != "" && (exists i :: Matches(Split(content, '\n'), symbol, i)) ==>
              code == 0 && out == Shown(Split(content, '\n'), symbol, context)
    ensures symbol != "" && !(exists i :: Matches(Split(content, '\n'), symbol, i)) ==> code == 2 && out == []
  {
    if symbol == "" {
      return 0, [Whole(if EndsWithNewline(content) then content else content + "\n")];
    }
    var lines := Split(content, '\n');
    var matched, found := FindMatches(lines, symbol);
    if !found {
      return 2, [];
    }
    out := PrintBlocks(lines, symbol, matched, context);
    code := 0;
  }

  // ---------- what the blocks are ----------

  /** A cell that is shown holds the row with its own number. */
  ghost predicate Numbered(cells: seq<Option<Out>>) {
    forall j :: 0 <= j < |cells| && cells[j].Some? ==> cells[j].value.Row? && cells[j].value.num == j + 1
  }

  /** Every row of the listing is the cell of its number. */
  lemma {:induction false} RowsAreCells(cells: seq<Option<Out>>)
    requires Numbered(cells)
    ensures forall r :: r in Merge(cells) ==> r == Separator || (r.Row? && 1 <= r.num <= |cells| && cells[r.num - 1] == Some(r))
    decreases |cells|
  {
    if cells != [] {
      RowsAreCells(cells[..|cells| - 1]);
    }
  }

  /** Every cell that is shown has its row in the listing. */
  lemma {:induction false} CellsAreRows(cells: seq<Option<Out>>, j: nat)
    requires j < |cells| && cells[j].Some?
    ensures cells[j].value in Merge(cells)
    decreases |cells|
  {
    var n := |cells| - 1;
    if j < n {
      CellsAreRows(cells[..n], j);
    } else {
      var out := Merge(cells);
      assert out[|out| - 1] == cells[j].value;
    }
  }

  /** A row that follows a row directly is the next line; a separator stands between two rows with
      at least one line left out between them, and nowhere else. */
  ghost predicate WellSpaced(out: seq<Out>) {
    && (out != [] ==> out[0].Row? && out[|out| - 1].Row?)
    && (forall k :: 0 <= k < |out| - 1 && out[k].Row? && out[k + 1].Row? ==> out[k + 1].num == out[k].num + 1)
    && (forall k :: 0 < k < |out| - 1 && out[k].Separator? ==>
          out[k - 1].Row? && out[k + 1].Row? && out[k + 1].num > out[k - 1].num + 1)
  }

  lemma AddRow(before: seq<Out>, r: Out)
    requires WellSpaced(before) && r.Row? && (before != [] ==> r.num == before[|before| - 1].num + 1)
    ensures WellSpaced(before + [r])
  {
  }

  lemma AddAfterGap(before: seq<Out>, r: Out)
    requires WellSpaced(before) && r.Row? && before != [] && r.num > before[|before| - 1].num + 1
    ensures WellSpaced(before + [Separator, r])
  {
  }

  lemma {:induction false} MergeIsWellSpaced(cells: seq<Option<Out>>)
    requires Numbered(cells)
    ensures WellSpaced(Merge(cells))
    ensures Merge(cells) != [] ==>
              var last := Merge(cells)[|Merge(cells)| - 1];
              last.num <= |cells| && (last.num == |cells| <==> cells[|cells| - 1].Some?)
    decreases |cells|
  {
    if cells != [] {
      var n := |cells| - 1;
      var before := Merge(cells[..n]);
      MergeIsWellSpaced(cells[..n]);
      if cells[n].Some? {
        if before == [] || cells[n - 1].Some? {
          if before != [] {
            assert cells[..n][n - 1] == cells[n - 1];
          }
          AddRow(before, cells[n].value);
        } else {
          AddAfterGap(before, cells[n].value);
        }
      }
    }
  }

  /** So the numbers strictly increase. */
  lemma {:induction false} NumbersIncrease(out: seq<Out>, a: nat, b: nat)
    requires WellSpaced(out) && (forall r :: r in out ==> !r.Whole?)
    requires a < b < |out| && out[a].Row? && out[b].Row?
    ensures out[a].num < out[b].num
    decreases b
  {
    if out[b - 1].Row? {
      if a < b - 1 {
        NumbersIncrease(out, a, b - 1);
      }
    } else {
      assert out[b - 1] in out;
      if a < b - 2 {
        NumbersIncrease(out, a, b - 2);
      }
    }
  }

  /** For the whole file and any context that is not negative: the lines shown are exactly those at most
      that many lines after one with the symbol, with their number and text, marked ':' exactly when they
      have the symbol themselves. */
  lemma ShownLinesAreNear(lines: seq<string>, symbol: string, context: int, j: int)
    requires context >= 0
    ensures 0 <= j < |lines| && AfterMatch(lines, symbol, context, j) ==>
              Row(j + 1, if Contains(lines[j], symbol) then ':' else '-', lines[j]) in Shown(lines, symbol, context)
    ensures forall r :: r in Shown(lines, symbol, context) && r.Row? ==>
              && 1 <= r.num <= |lines| && AfterMatch(lines, symbol, context, r.num - 1)
              && r.text == lines[r.num - 1] && r.marker == if Contains(r.text, symbol) then ':' else '-'
  {
    if 0 <= j < |lines| && AfterMatch(lines, symbol, context, j) {
      NearIff(lines, symbol, context, j);
      CellsAreRows(Cells(lines, symbol, context, |lines|), j);
    }
    forall r | r in Shown(lines, symbol, context) && r.Row?
      ensures && 1 <= r.num <= |lines| && AfterMatch(lines, symbol, context, r.num - 1)
              && r.text == lines[r.num - 1] && r.marker == if Contains(r.text, symbol) then ':' else '-'
    {
      ShownRowIs(lines, symbol, context, r);
    }
  }

  lemma ShownRowIs(lines: seq<string>, symbol: string, context: int, r: Out)
    requires context >= 0 && r in Shown(lines, symbol, context) && r.Row?
    ensures 1 <= r.num <= |lines| && AfterMatch(lines, symbol, context, r.num - 1)
    ensures r.text == lines[r.num - 1] && r.marker == if Contains(r.text, symbol) then ':' else '-'
  {
    RowsAreCells(Cells(lines, symbol, context, |lines|));
    NearIff(lines, symbol, context, r.num - 1);
  }

  ghost predicate AfterMatch(lines: seq<string>, symbol: string, context: int, j: int) {
    exists i :: 0 <= i < |lines| && j - context <= i <= j && Contains(lines[i], symbol)
  }

  lemma NearIff(lines: seq<string>, symbol: string, context: int, j: int)
    ensures Near(lines, symbol, context, j) <==> AfterMatch(lines, symbol, context, j)
  {
    if AfterMatch(lines, symbol, context, j) {
      var i :| 0 <= i < |lines| && j - context <= i <= j && Contains(lines[i], symbol);
      assert Matches(lines, symbol, i);
    }
  }

  /** And they strictly increase, with separators exactly at the gaps. */
  lemma ShownLinesIncrease(lines: seq<string>, symbol: string, context: int)
    requires context >= 0
    ensures WellSpaced(Shown(lines, symbol, context)) && Increasing(Shown(lines, symbol, context))
  {
    MergeIncreases(Cells(lines, symbol, context, |lines|));
  }

  ghost predicate Increasing(out: seq<Out>) {
    forall a, b :: 0 <= a < b < |out| && out[a].Row? && out[b].Row? ==> out[a].num < out[b].num
  }

  lemma MergeIncreases(cells: seq<Option<Out>>)
    requires Numbered(cells)
    ensures WellSpaced(Merge(cells)) && Increasing(Merge(cells))
  {
    var out := Merge(cells);
    RowsAreCells(cells);
    MergeIsWellSpaced(cells);
    forall a, b | 0 <= a < b < |out| && out[a].Row? && out[b].Row? ensures out[a].num < out[b].num {
      NumbersIncrease(out, a, b);
    }
  }

  /** A negative context shows no line at all. */
  lemma {:induction false} NegativeShowsNoLine(lines: seq<string>, symbol: string, context: int, n: nat)
    requires context < 0 && n <= |lines|
    ensures forall k :: 0 <= k < |Separators(lines, symbol, context, n)| ==> Separators(lines, symbol, context, n)[k] == Separator
    ensures forall j :: !Near(lines, symbol, context, j)
  {
    if n > 0 {
      NegativeShowsNoLine(lines, symbol, context, n - 1);
    }
  }

  /** The lines with the symbol before which another one is at most -context from the top. */
  ghost function Parted(lines: seq<string>, symbol: string, context: int, n: nat): set<int>
    requires n <= |lines|
  {
    set i | 0 <= i < n && Contains(lines[i], symbol) && Follows(lines, symbol, context, i)
  }

  ghost predicate Follows(lines: seq<string>, symbol: string, context: int, i: int)
    requires i <= |lines|
  {
    exists k :: 0 <= k < i && Contains(lines[k], symbol) && k + context >= 0
  }

  /** It shows a separator for each of these, and nothing else. */
  lemma {:induction false} NegativeSeparates(lines: seq<string>, symbol: string, context: int, n: nat)
    requires context < 0 && n <= |lines|
    ensures |Separators(lines, symbol, context, n)| == |Parted(lines, symbol, context, n)|
  {
    if n > 0 {
      NegativeSeparates(lines, symbol, context, n - 1);
      var last := LastMatch(lines, symbol, n - 1);
      FollowsIff(lines, symbol, context, n - 1);
      var before, now := Parted(lines, symbol, context, n - 1), Parted(lines, symbol, context, n);
      assert now == if Contains(lines[n - 1], symbol) && Follows(lines, symbol, context, n - 1) then before + {n - 1} else before;
    }
  }

  lemma FollowsIff(lines: seq<string>, symbol: string, context: int, n: nat)
    requires n <= |lines|
    ensures Follows(lines, symbol, context, n) <==> LastMatch(lines, symbol, n) >= 0 && LastMatch(lines, symbol, n) + context >= 0
  {
    var last := LastMatch(lines, symbol, n);
    if Follows(lines, symbol, context, n) {
      var k :| 0 <= k < n && Contains(lines[k], symbol) && k + context >= 0;
      assert Matches(lines, symbol, k);
    }
    if last >= 0 {
      assert Matches(lines, symbol, last);
    }
  }
}
