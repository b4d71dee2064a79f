/** The rotating audit log (internal/comms/comms.go, LogEvent and rotateIfNeeded). */
module EventLog {
  import opened Text

  /** events.log and its generations, newest first; EventLogKeep is three. */
  datatype Files = Files(current: Option<string>, g1: Option<string>, g2: Option<string>, g3: Option<string>)

  function Content(o: Option<string>): string {
    if o.Some? then o.value else ""
  }

  /** The rotated generations, oldest first. */
  function Rotated(f: Files): string {
    Content(f.g3) + Content(f.g2) + Content(f.g1)
  }

  /** Everything the files hold, oldest first. */
  function Kept(f: Files): string {
    Rotated(f) + Content(f.current)
  }

  ghost predicate Full(o: Option<string>, maxSize: nat) {
    o.Some? ==> |o.value| >= maxSize
  }

  /** What every run keeps: no generation is missing below another, rotated generations are
      full, and nothing is dropped before all of them exist. */
  ghost predicate Shaped(f: Files, dropped: string, maxSize: nat) {
    && (f.g1.None? ==> f.g2.None?) && (f.g2.None? ==> f.g3.None?)
    && Full(f.g1, maxSize) && Full(f.g2, maxSize) && Full(f.g3, maxSize)
    && (dropped != "" ==> f.g3.Some?)
  }

  /** No file has grown past the limit by more than a line. */
  ghost predicate Bounded(f: Files, maxSize: nat, longest: nat) {
    && |Content(f.current)| <= maxSize + longest && |Content(f.g1)| <= maxSize + longest
    && |Content(f.g2)| <= maxSize + longest && |Content(f.g3)| <= maxSize + longest
  }

  class EventLog {
    const maxSize: nat
    var files: Files
    ghost var dropped: string   // what rotation has removed so far
    ghost var history: string   // everything ever logged
    ghost var longest: nat      // the length of the longest line so far

    ghost predicate Valid()
      reads this
    {
      history == dropped + Kept(files) && Shaped(files, dropped, maxSize) && Bounded(files, maxSize, longest)
    }

    constructor (maxSize: nat)
      ensures Valid() && history == "" && longest == 0 && this.maxSize == maxSize && files == Files(None, None, None, None)
    {
      this.maxSize := maxSize;
      files := Files(None, None, None, None);
      dropped, history, longest := "", "", 0;
    }

    /** rotateIfNeeded: a full log becomes generation 1, and at most generation 3 is dropped. A
        rename without a source changes nothing; otherwise it replaces its target. */
    method RotateIfNeeded()
      requires Valid()
      modifies `files, `dropped
      ensures Valid()
      ensures var f := old(files);
              if f.current.Some? && |f.current.value| >= maxSize
              then files == Files(None, f.current, f.g1, f.g2) && dropped == old(dropped) + Content(f.g3)
              else files == f && dropped == old(dropped)
    {
      if files.current.None? || |files.current.value| < maxSize {
        return;
      }
      ghost var f := files;
      if files.g2.Some? {
        dropped := dropped + Content(files.g3);
        files := files.(g3 := files.g2, g2 := None);
      }
      if files.g1.Some? {
        files := files.(g2 := files.g1, g1 := None);
      }
      files := files.(g1 := files.current, current := None);
      RotationKeeps(f, files, old(dropped), dropped, maxSize);
    }

    /** LogEvent: rotate if the log is full, then append one line. */
    method LogEvent(line: string)
      requires Valid()
      modifies this
      ensures Valid() && history == old(history) + line
      ensures longest == if |line| > old(longest) then |line| else old(longest)
      ensures var f := old(files);
              files == if f.current.Some? && |f.current.value| >= maxSize then Files(Some(line), f.current, f.g1, f.g2)
                       else f.(current := Some(Content(f.current) + line))
    {
      RotateIfNeeded();
      AppendKeeps(files, line, dropped);
      assert "" + line == line;
      files := files.(current := Some(Content(files.current) + line));
      history := history + line;
      longest := if |line| > longest then |line| else longest;
    }
  }

  lemma RotationKeeps(f: Files, g: Files, dropped: string, dropped': string, maxSize: nat)
    requires Shaped(f, dropped, maxSize) && f.current.Some? && |f.current.value| >= maxSize
    requires g == Files(None, f.current, if f.g1.Some? then f.g1 else f.g2, if f.g2.Some? then f.g2 else f.g3)
    requires dropped' == if f.g2.Some? then dropped + Content(f.g3) else dropped
    ensures Shaped(g, dropped', maxSize) && dropped' + Kept(g) == dropped + Kept(f)
    ensures f.g2.None? ==> Kept(g) == Kept(f)
  {
    var a, b, c, d := Content(f.g3), Content(f.g2), Content(f.g1), Content(f.current);
    if f.g2.Some? {
      calc {
        dropped' + Kept(g);
        (dropped + a) + (((b + c) + d) + "");
        { assert ((b + c) + d) + "" == (b + c) + d; }
        (dropped + a) + ((b + c) + d);
        { Associate(dropped, a, b, c, d); }
        dropped + (((a + b) + c) + d);
        dropped + Kept(f);
      }
    } else {
      assert a == "" && b == "";
      assert Kept(g) == Kept(f);
    }
  }

  lemma Associate(x: string, a: string, b: string, c: string, d: string)
    ensures (x + a) + ((b + c) + d) == x + (((a + b) + c) + d)
  {
    assert (a + b) + c == a + (b + c);
    assert (a + (b + c)) + d == a + ((b + c) + d);
    assert (x + a) + ((b + c) + d) == x + (a + ((b + c) + d));
  }

  lemma AppendKeeps(f: Files, line: string, dropped: string)
    ensures dropped + Kept(f.(current := Some(Content(f.current) + line))) == (dropped + Kept(f)) + line
  {
    var r, c := Rotated(f), Content(f.current);
    assert r + (c + line) == (r + c) + line;
    assert dropped + ((r + c) + line) == (dropped + (r + c)) + line;
  }

  /** After any run, the files hold the end of everything ever logged; unless they hold all of it, at
      least three full generations; and never more than four and the four longest lines. */
  lemma {:induction false} EnoughIsKept(log: EventLog)
    requires log.Valid()
    ensures |Kept(log.files)| <= |log.history|
    ensures log.history[|log.history| - |Kept(log.files)|..] == Kept(log.files)
    ensures Kept(log.files) == log.history || |Kept(log.files)| >= 3 * log.maxSize
    ensures |Kept(log.files)| <= 4 * (log.maxSize + log.longest)
  {
    var d, k := log.dropped, Kept(log.files);
    assert (d + k)[|d|..] == k;
    if d == "" {
      assert d + k == k;
    } else {
      var f := log.files;
      assert |k| == |f.g3.value| + |f.g2.value| + |f.g1.value| + |Content(f.current)|;
    }
  }
}
