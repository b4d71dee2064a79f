/** File-name safety (internal/fsutil) and the field cleaning of bus and claim records. */
module Names {
  import opened Text

  predicate FileChar(c: char) {
    'A' <= c <= 'Z' || 'a' <= c <= 'z' || '0' <= c <= '9' || c == '.' || c == '_' || c == '-'
  }

  /** fsafe: every other character becomes an underscore. */
  function Fsafe(s: string): (r: string)
    ensures |r| == |s|
    ensures forall i :: 0 <= i < |s| ==> r[i] == s[i] || (r[i] == '_' && !FileChar(s[i]))
    ensures forall i :: 0 <= i < |s| ==> FileChar(r[i])
  {
    seq(|s|, i requires 0 <= i < |s| => if FileChar(s[i]) then s[i] else '_')
  }

  /** fsutil.Safe */
  function Safe(s: string): Option<string> {
    if s == "" || s == "." || s == ".." || Contains(s, "/") || Contains(s, "..") then None else Some(Fsafe(s))
  }

  /** clean: tabs and newlines become spaces. */
  function Clean(s: string): (r: string)
    ensures |r| == |s| && '\t' !in r && '\n' !in r
    ensures forall i :: 0 <= i < |s| ==> r[i] == s[i] || (r[i] == ' ' && s[i] in "\t\n")
  {
    seq(|s|, i requires 0 <= i < |s| => if s[i] == '\t' || s[i] == '\n' then ' ' else s[i])
  }

  lemma NotContained(s: string, sub: string)
    requires forall i :: 0 <= i <= |s| ==> !HasPrefix(s[i..], sub)
    ensures !Contains(s, sub)
  {
  }

  /** The codes of the characters that are kept. */
  predicate Kept(c: char) {
    var code := c as int;
    65 <= code <= 90 || 97 <= code <= 122 || 48 <= code <= 57 || code in {45, 46, 95}
  }

  /** A name is refused exactly if it is empty, is a dot, or has a slash or two dots in a row in it; a safe
      one differs from it only in underscores for the characters that are not kept. */
  lemma SafeIff(s: string)
    ensures Safe(s).Some? <==> s != "" && s != "." && '/' !in s && !TwoDotsIn(s)
    ensures Safe(s).Some? ==>
              && |Safe(s).value| == |s|
              && forall i :: 0 <= i < |s| ==> Safe(s).value[i] == if Kept(s[i]) then s[i] else '_'
  {
    assert forall i :: 0 <= i < |s| ==> (FileChar(s[i]) <==> Kept(s[i]));
    SlashIn(s);
    DotsIn(s);
    TwoDots(s);
  }

  ghost predicate TwoDotsIn(s: string) {
    exists i :: 0 <= i < |s| - 1 && s[i] == '.' && s[i + 1] == '.'
  }

  lemma SlashIn(s: string)
    ensures Contains(s, "/") <==> '/' in s
  {
    if '/' in s {
      var i :| 0 <= i < |s| && s[i] == '/';
      assert s[i..][..1] == "/";
      assert HasPrefix(s[i..], "/");
    } else {
      forall i | 0 <= i <= |s| ensures !HasPrefix(s[i..], "/") {
        if i < |s| {
          assert s[i..][0] == s[i];
        }
      }
      NotContained(s, "/");
    }
  }

  lemma DotsIn(s: string)
    ensures Contains(s, "..") <==> TwoDotsIn(s)
  {
    if TwoDotsIn(s) {
      var i :| 0 <= i < |s| - 1 && s[i] == '.' && s[i + 1] == '.';
      TwoDots(s[i..]);
      assert HasPrefix(s[i..], "..");
    } else {
      forall i | 0 <= i <= |s| ensures !HasPrefix(s[i..], "..") {
        TwoDots(s[i..]);
        if i < |s| - 1 {
          assert s[i..][0] == s[i] && s[i..][1] == s[i + 1];
        }
      }
      NotContained(s, "..");
    }
  }

  /** A safe name can never leave its directory, and is its own safe name. */
  lemma SafeIsStable(s: string)
    requires Safe(s).Some?
    ensures Safe(Safe(s).value) == Safe(s)
    ensures forall i :: 0 <= i < |Safe(s).value| ==> FileChar(Safe(s).value[i])
  {
    var t := Fsafe(s);
    assert forall i :: 0 <= i < |s| ==> (t[i] == '.' <==> s[i] == '.') && t[i] != '/';
    forall i | 0 <= i <= |t| ensures !HasPrefix(t[i..], "/") && !HasPrefix(t[i..], "..") {
      assert !HasPrefix(s[i..], "..");
      TwoDots(s[i..]);
      TwoDots(t[i..]);
      if i < |t| {
        assert t[i..][0] == t[i];
      }
    }
    NotContained(t, "/");
    NotContained(t, "..");
    assert Fsafe(t) == t;
    TwoDots(s);
    TwoDots(t);
    assert s[..] == s && t[..] == t;
  }

  lemma TwoDots(x: string)
    ensures HasPrefix(x, "..") <==> |x| >= 2 && x[0] == '.' && x[1] == '.'
    ensures x == ".." <==> |x| == 2 && x[0] == '.' && x[1] == '.'
    ensures x == "." <==> |x| == 1 && x[0] == '.'
  {
    if |x| >= 2 {
      assert x[..2] == [x[0], x[1]];
    }
  }
}
