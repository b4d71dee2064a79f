/** Topic files: escaped headers and a body (internal/dashboard/topic.go). */
module Topic {
  import opened Text

  const QUOTE := "\""
  const ESCAPED_QUOTE := "\\\""
  const BACKSLASH := "\\"
  const ESCAPED_BACKSLASH := "\\\\"
  const BLANK_LINE := "\n\n"

  // ---------- quoting ----------

  function QuoteYAML(v: string): string {
    "\"" + ReplaceAll(ReplaceAll(v, BACKSLASH, ESCAPED_BACKSLASH), QUOTE, ESCAPED_QUOTE) + "\""
  }

  function UnquoteYAML(v: string): string {
    if |v| >= 2 && v[0] == '"' && v[|v| - 1] == '"' then
      ReplaceAll(ReplaceAll(v[1..|v| - 1], ESCAPED_QUOTE, QUOTE), ESCAPED_BACKSLASH, BACKSLASH)
    else v
  }

  lemma Head(c: char, s: string, p: string)
    requires p != ""
    ensures HasPrefix([c] + s, p) <==> p[0] == c && HasPrefix(s, p[1..])
    ensures ([c] + s)[1..] == s
  {
    if |p| <= |s| + 1 {
      assert ([c] + s)[..|p|] == [c] + s[..|p| - 1];
      assert p == [p[0]] + p[1..];
    }
  }

  /** Escaping one character with a backslash, and unescaping it in one left-to-right pass, is
      the identity: the pass cannot be misled by backslashes already there. */
  lemma {:induction false} UnescapeQuotes(w: string)
    ensures ReplaceAll(ReplaceAll(w, QUOTE, ESCAPED_QUOTE), ESCAPED_QUOTE, QUOTE) == w
    ensures !HasPrefix(ReplaceAll(w, QUOTE, ESCAPED_QUOTE), QUOTE)
  {
    if w != "" {
      var c, rest := w[0], w[1..];
      UnescapeQuotes(rest);
      var e := ReplaceAll(rest, QUOTE, ESCAPED_QUOTE);
      assert w == [c] + rest;
      Head(c, rest, QUOTE);
      if c == '"' {
        assert ReplaceAll(w, QUOTE, ESCAPED_QUOTE) == ESCAPED_QUOTE + e;
        assert (ESCAPED_QUOTE + e)[2..] == e;
        assert (ESCAPED_QUOTE + e)[..2] == ESCAPED_QUOTE;
      } else {
        assert ReplaceAll(w, QUOTE, ESCAPED_QUOTE) == [c] + e;
        Head(c, e, ESCAPED_QUOTE);
        Head(c, e, QUOTE);
        assert ESCAPED_QUOTE[1..] == QUOTE;
      }
    }
  }

  lemma {:induction false} UnescapeBackslashes(w: string)
    ensures ReplaceAll(ReplaceAll(w, BACKSLASH, ESCAPED_BACKSLASH), ESCAPED_BACKSLASH, BACKSLASH) == w
  {
    if w != "" {
      var c, rest := w[0], w[1..];
      UnescapeBackslashes(rest);
      var e := ReplaceAll(rest, BACKSLASH, ESCAPED_BACKSLASH);
      assert w == [c] + rest;
      Head(c, rest, BACKSLASH);
      if c == '\\' {
        assert ReplaceAll(w, BACKSLASH, ESCAPED_BACKSLASH) == ESCAPED_BACKSLASH + e;
        assert (ESCAPED_BACKSLASH + e)[2..] == e;
        assert (ESCAPED_BACKSLASH + e)[..2] == ESCAPED_BACKSLASH;
      } else {
        assert ReplaceAll(w, BACKSLASH, ESCAPED_BACKSLASH) == [c] + e;
        Head(c, e, ESCAPED_BACKSLASH);
      }
    }
  }

  /** unquoteYAML inverts quoteYAML on every string. */
  lemma UnquoteInvertsQuote(v: string)
    ensures UnquoteYAML(QuoteYAML(v)) == v
  {
    var a := ReplaceAll(v, BACKSLASH, ESCAPED_BACKSLASH);
    var b := ReplaceAll(a, QUOTE, ESCAPED_QUOTE);
    var q := QuoteYAML(v);
    assert q[1..|q| - 1] == b;
    UnescapeQuotes(a);
    UnescapeBackslashes(v);
  }

  /** A quoted string is escaped character by character: a backslash before each backslash and quote. */
  function Escaped(v: string): string {
    if v == "" then ""
    else (if v[0] == '\\' || v[0] == '"' then ['\\', v[0]] else [v[0]]) + Escaped(v[1..])
  }

  lemma ReplaceHead(c: char, s: string, p: string, by_: string)
    requires |p| == 1
    ensures ReplaceAll([c] + s, p, by_) == (if c == p[0] then by_ else [c]) + ReplaceAll(s, p, by_)
  {
    Head(c, s, p);
    assert p == [p[0]];
    assert ([c] + s)[|p|..] == s;
  }

  lemma EscapeHead(c: char, rest: string, b: string, bb: string, q: string, bq: string)
    requires |b| == |q| == 1 && b[0] != q[0] && bb == b + b && bq == b + q
    ensures ReplaceAll(ReplaceAll([c] + rest, b, bb), q, bq) ==
              (if c == b[0] || c == q[0] then b + [c] else [c]) + ReplaceAll(ReplaceAll(rest, b, bb), q, bq)
  {
    var e := ReplaceAll(rest, b, bb);
    var f := ReplaceAll(e, q, bq);
    ReplaceHead(c, rest, b, bb);
    ReplaceHead(c, e, q, bq);
    if c == b[0] {
      assert bb + e == [c] + ([c] + e);
      ReplaceHead(c, [c] + e, q, bq);
      assert [c] + ([c] + f) == (b + [c]) + f;
    } else if c == q[0] {
      assert bq == b + [c];
    }
  }

  lemma {:induction false} EscapedIs(v: string)
    ensures ReplaceAll(ReplaceAll(v, BACKSLASH, ESCAPED_BACKSLASH), QUOTE, ESCAPED_QUOTE) == Escaped(v)
  {
    if v != "" {
      EscapedIs(v[1..]);
      EscapeHead(v[0], v[1..], BACKSLASH, ESCAPED_BACKSLASH, QUOTE, ESCAPED_QUOTE);
      assert BACKSLASH + [v[0]] == ['\\', v[0]];
      assert v == [v[0]] + v[1..];
    }
  }

  lemma QuoteIs(v: string)
    ensures QuoteYAML(v) == "\"" + Escaped(v) + "\""
  {
    EscapedIs(v);
  }

  lemma {:induction false} ReplaceKeepsOut(s: string, old_: string, new_: string, c: char)
    requires old_ != "" && c !in s && c !in new_
    ensures c !in ReplaceAll(s, old_, new_)
  {
    if s != "" {
      if HasPrefix(s, old_) {
        ReplaceKeepsOut(s[|old_|..], old_, new_, c);
      } else {
        ReplaceKeepsOut(s[1..], old_, new_, c);
      }
    }
  }

  lemma QuotedIsOneLine(v: string)
    requires '\n' !in v
    ensures '\n' !in QuoteYAML(v)
  {
    ReplaceKeepsOut(v, BACKSLASH, ESCAPED_BACKSLASH, '\n');
    ReplaceKeepsOut(ReplaceAll(v, BACKSLASH, ESCAPED_BACKSLASH), QUOTE, ESCAPED_QUOTE, '\n');
  }

  // ---------- the file ----------

  datatype Meta = Meta(title: string, category: string, kind: string, status: string, assignedTo: string, createdBy: string,
                       created: string, docRef: string, notedBy: string, since: string, resolved: string,
                       migratedFrom: string, tags: string)

  const EMPTY := Meta("", "", "", "", "", "", "", "", "", "", "", "", "")

  /** The fields a header key can name. */
  datatype Field = IsTitle | IsCategory | IsKind | IsStatus | IsAssignedTo | IsCreatedBy | IsCreated | IsDocRef | IsNotedBy | IsSince | IsMigratedFrom | IsTags | IsResolved | IsNone

  /** Keys are compared in lower case. */
  function FieldOf(key: string): Field {
    var k := ToLower(key);
    if k == "title" then IsTitle
    else if k == "category" then IsCategory
    else if k == "kind" then IsKind
    else if k == "status" then IsStatus
    else if k == "assigned-to" then IsAssignedTo
    else if k == "created-by" then IsCreatedBy
    else if k == "created" then IsCreated
    else if k == "doc-ref" || k == "doc_ref" then IsDocRef
    else if k == "noted-by" then IsNotedBy
    else if k == "since" then IsSince
    else if k == "migrated_from" then IsMigratedFrom
    else if k == "tags" then IsTags
    else if k == "resolved" then IsResolved
    else IsNone
  }

  function Set(m: Meta, f: Field, val: string): Meta {
    match f
    case IsTitle => m.(title := val)
    case IsCategory => m.(category := val)
    case IsKind => m.(kind := val)
    case IsStatus => m.(status := val)
    case IsAssignedTo => m.(assignedTo := val)
    case IsCreatedBy => m.(createdBy := val)
    case IsCreated => m.(created := val)
    case IsDocRef => m.(docRef := val)
    case IsNotedBy => m.(notedBy := val)
    case IsSince => m.(since := val)
    case IsMigratedFrom => m.(migratedFrom := val)
    case IsTags => m.(tags := val)
    case IsResolved => m.(resolved := val)
    case IsNone => m
  }

  function SetField(m: Meta, key: string, val: string): Meta {
    Set(m, FieldOf(key), val)
  }

  /** One header line: trimmed, split at its first colon, the value trimmed and unquoted. */
  function ParseHeader(line: string): Option<(string, string)> {
    var l := TrimSpace(line);
    if l == "" then None
    else
      match IndexOf(l, ':')
      case None => None
      case Some(i) => Some((TrimSpace(l[..i]), UnquoteYAML(TrimSpace(l[i + 1..]))))
  }

  /** The header lines in order; the flag says whether any was a header at all. */
  function ParseHeaders(lines: seq<string>): (Meta, bool)
    decreases |lines|
  {
    if lines == [] then (EMPTY, false)
    else
      var (m, any) := ParseHeaders(lines[..|lines| - 1]);
      match ParseHeader(lines[|lines| - 1])
      case None => (m, any)
      case Some(kv) => (SetField(m, kv.0, kv.1), true)
  }

  /** strings.Index(s, "\n\n") */
  function IndexOfBlank(s: string): (r: Option<nat>)
    ensures r.Some? ==> r.value + 2 <= |s|
  {
    if s == "" then None
    else if HasPrefix(s, BLANK_LINE) then Some(0)
    else match IndexOfBlank(s[1..])
      case None => None
      case Some(i) => Some(i + 1)
  }

  /** parseTopicFile: header fields and body, or None without headers. */
  function Parse(s: string): Option<(Meta, string)> {
    match IndexOfBlank(s)
    case None => None
    case Some(i) =>
      var (m, any) := ParseHeaders(Split(s[..i], '\n'));
      if !any then None
      else Some((if m.category == "" then m.(category := "active") else m, TrimPrefix(s[i + 2..], "\n")))
  }

  method ParseTopicFile(s: string) returns (r: Option<(Meta, string)>)
    ensures r == Parse(s)
  {
    var idx := IndexOfBlank(s);
    if idx.Some? {
      var lines := Split(s[..idx.value], '\n');
      var body := TrimPrefix(s[idx.value + 2..], "\n");
      var m, hasHeaders := EMPTY, false;
      for i := 0 to |lines|
        invariant (m, hasHeaders) == ParseHeaders(lines[..i])
      {
        assert lines[..i + 1][..i] == lines[..i];
        var kv := ParseHeader(lines[i]);
        if kv.None? {
          continue;
        }
        hasHeaders := true;
        m := SetField(m, kv.value.0, kv.value.1);
      }
      assert lines[..|lines|] == lines;
      if hasHeaders {
        if m.category == "" {
          m := m.(category := "active");
        }
        return Some((m, body));
      }
    }
    return None;
  }

  /** The header fields in the order they are written: key, value, and whether it is quoted. */
  datatype Header = Header(key: string, val: string, quoted: bool)

  function Optional(key: string, val: string): seq<Header> {
    if val != "" then [Header(key, val, true)] else []
  }

  function FirstHeaders(m: Meta): seq<Header> {
    [Header("Title", m.title, true), Header("Category", m.category, false)]
    + Optional("Kind", m.kind) + Optional("Status", m.status) + Optional("Assigned-To", m.assignedTo)
    + Optional("Created-By", m.createdBy)
  }

  function MoreHeaders(m: Meta): seq<Header> {
    Optional("Created", m.created) + Optional("Doc-Ref", m.docRef) + Optional("Noted-By", m.notedBy)
  }

  function LaterHeaders(m: Meta): seq<Header> {
    Optional("Since", m.since) + Optional("Resolved", m.resolved)
  }

  function LastHeaders(m: Meta): seq<Header> {
    (if m.migratedFrom != "" then [Header("Migrated-From", m.migratedFrom, false)] else [])
    + Optional("Tags", m.tags)
  }

  function Headers(m: Meta): seq<Header> {
    FirstHeaders(m) + MoreHeaders(m) + LaterHeaders(m) + LastHeaders(m)
  }

  function HeaderLine(h: Header): string {
    h.key + ": " + if h.quoted then QuoteYAML(h.val) else h.val
  }

  function HeaderText(hs: seq<Header>): string
    decreases |hs|
  {
    if hs == [] then "" else HeaderText(hs[..|hs| - 1]) + HeaderLine(hs[|hs| - 1]) + "\n"
  }

  /** What writeTopicFile writes. */
  function Render(m: Meta, body: string): string {
    HeaderText(Headers(m)) + "\n" + TrimRightChar(body, '\n') + "\n"
  }

  /** The builder steps of the writer: a line for a field, or none when it is empty. */
  lemma WriteOptional(hs: seq<Header>, key: string, val: string)
    ensures HeaderText(hs + Optional(key, val)) ==
              if val != "" then HeaderText(hs) + key + ": " + QuoteYAML(val) + "\n" else HeaderText(hs)
  {
    if val != "" {
      WriteOne(hs, Header(key, val, true));
    } else {
      assert hs + [] == hs;
    }
  }

  lemma WriteOne(hs: seq<Header>, h: Header)
    ensures HeaderText(hs + [h]) == HeaderText(hs) + HeaderLine(h) + "\n"
  {
    assert (hs + [h])[..|hs + [h]| - 1] == hs;
  }

  /** The field's line, quoted, if the field is not empty. */
  method WriteField(b: string, ghost hs: seq<Header>, key: string, val: string) returns (out: string)
    requires b == HeaderText(hs)
    ensures out == HeaderText(hs + Optional(key, val))
  {
    WriteOptional(hs, key, val);
    out := b;
    if val != "" {
      out := out + key + ": " + QuoteYAML(val) + "\n";
    }
  }

  method WriteFirst(m: Meta) returns (b: string)
    ensures b == HeaderText(FirstHeaders(m))
  {
    ghost var title, category := Header("Title", m.title, true), Header("Category", m.category, false);
    b := "Title: " + QuoteYAML(m.title) + "\n" + "Category: " + m.category + "\n";
    assert b == HeaderText([title, category]) by {
      WriteOne([], title);
      WriteOne([title], category);
      assert [] + [title] == [title] && [title] + [category] == [title, category];
    }
    ghost var hs := [title, category];
    b := WriteField(b, hs, "Kind", m.kind);
    hs := hs + Optional("Kind", m.kind);
    b := WriteField(b, hs, "Status", m.status);
    hs := hs + Optional("Status", m.status);
    b := WriteField(b, hs, "Assigned-To", m.assignedTo);
    hs := hs + Optional("Assigned-To", m.assignedTo);
    b := WriteField(b, hs, "Created-By", m.createdBy);
  }

  lemma Assoc(hs: seq<Header>, a: seq<Header>, b: seq<Header>, c: seq<Header>)
    ensures hs + a + b == hs + (a + b)
    ensures hs + a + b + c == hs + (a + b + c)
  {
  }

  method WriteMore(m: Meta, first: string, ghost hs: seq<Header>) returns (b: string)
    requires first == HeaderText(hs)
    ensures b == HeaderText(hs + MoreHeaders(m))
  {
    ghost var created, docRef := Optional("Created", m.created), Optional("Doc-Ref", m.docRef);
    b := WriteField(first, hs, "Created", m.created);
    b := WriteField(b, hs + created, "Doc-Ref", m.docRef);
    b := WriteField(b, hs + created + docRef, "Noted-By", m.notedBy);
    Assoc(hs, created, docRef, Optional("Noted-By", m.notedBy));
  }

  method WriteLater(m: Meta, more: string, ghost hs: seq<Header>) returns (b: string)
    requires more == HeaderText(hs)
    ensures b == HeaderText(hs + LaterHeaders(m))
  {
    b := WriteField(more, hs, "Since", m.since);
    b := WriteField(b, hs + Optional("Since", m.since), "Resolved", m.resolved);
    Assoc(hs, Optional("Since", m.since), Optional("Resolved", m.resolved), []);
  }

  method WriteLast(m: Meta, later: string, ghost hs: seq<Header>) returns (b: string)
    requires later == HeaderText(hs)
    ensures b == HeaderText(hs + LastHeaders(m))
  {
    ghost var mark := if m.migratedFrom != "" then [Header("Migrated-From", m.migratedFrom, false)] else [];
    b := later;
    if m.migratedFrom != "" {
      WriteOne(hs, mark[0]);
      b := b + "Migrated-From: " + m.migratedFrom + "\n";
    }
    assert hs + [] == hs;
    b := WriteField(b, hs + mark, "Tags", m.tags);
    Assoc(hs, mark, Optional("Tags", m.tags), []);
  }

  /** writeTopicFile up to handing the bytes to the file system. */
  method WriteTopicFile(m: Meta, body: string) returns (b: string)
    ensures b == Render(m, body)
  {
    b := WriteFirst(m);
    b := WriteMore(m, b, FirstHeaders(m));
    b := WriteLater(m, b, FirstHeaders(m) + MoreHeaders(m));
    b := WriteLast(m, b, FirstHeaders(m) + MoreHeaders(m) + LaterHeaders(m));
    b := b + "\n";
    b := b + TrimRightChar(body, '\n');
    b := b + "\n";
  }

  // ---------- reading back what was written ----------

  predicate OneLine(m: Meta) {
    && '\n' !in m.title && '\n' !in m.category && '\n' !in m.kind && '\n' !in m.status && '\n' !in m.assignedTo
    && '\n' !in m.createdBy && '\n' !in m.created && '\n' !in m.docRef && '\n' !in m.notedBy && '\n' !in m.since
    && '\n' !in m.resolved && '\n' !in m.migratedFrom && '\n' !in m.tags
  }

  function ValueBack(h: Header): string {
    if h.quoted then h.val else UnquoteYAML(TrimSpace(h.val))
  }

  /** A written header line reads as its key and its value. */
  lemma HeaderReadsBack(h: Header)
    requires GoodKey(h.key)
    ensures ParseHeader(HeaderLine(h)) == Some((h.key, ValueBack(h)))
    ensures HeaderLine(h) != "" && HeaderLine(h)[0] == h.key[0]
  {
    var v := if h.quoted then QuoteYAML(h.val) else h.val;
    var t := TrimRight(" " + v);
    LineTrims(h.key, v);
    IndexOfAfter(h.key, ':', t);
    var l := h.key + ":" + t;
    assert l[..|h.key|] == h.key && l[|h.key| + 1..] == t;
    TrimmedIsFixed(h.key);
    TrimIgnoresEdges(v);
    if h.quoted {
      TrimmedIsFixed(QuoteYAML(h.val));
      UnquoteInvertsQuote(h.val);
    }
  }

  lemma LineTrims(key: string, v: string)
    requires GoodKey(key)
    ensures TrimSpace(key + ": " + v) == key + ":" + TrimRight(" " + v)
  {
    var line := key + ": " + v;
    assert line == (key + ":") + (" " + v);
    assert TrimLeft(line) == line;
    TrimRightOf(key + ":", " " + v);
  }

  function Lines(hs: seq<Header>): seq<string> {
    seq(|hs|, i requires 0 <= i < |hs| => HeaderLine(hs[i]))
  }

  function SetFields(m: Meta, hs: seq<Header>): Meta
    decreases |hs|
  {
    if hs == [] then m else SetField(SetFields(m, hs[..|hs| - 1]), hs[|hs| - 1].key, ValueBack(hs[|hs| - 1]))
  }

  lemma {:induction false} HeadersReadBack(hs: seq<Header>)
    requires hs != [] && forall i :: 0 <= i < |hs| ==> GoodKey(hs[i].key)
    ensures ParseHeaders(Lines(hs)) == (SetFields(EMPTY, hs), true)
    decreases |hs|
  {
    var n := |hs| - 1;
    HeaderReadsBack(hs[n]);
    assert Lines(hs)[..n] == Lines(hs[..n]);
    if n > 0 {
      HeadersReadBack(hs[..n]);
    }
  }

  lemma {:induction false} SetFieldsAppend(m: Meta, a: seq<Header>, b: seq<Header>)
    ensures SetFields(m, a + b) == SetFields(SetFields(m, a), b)
    decreases |b|
  {
    if b == [] {
      assert a + b == a;
    } else {
      assert (a + b)[..|a + b| - 1] == a + b[..|b| - 1];
      SetFieldsAppend(m, a, b[..|b| - 1]);
    }
  }

  /** A quoted header with a value; no key but the migration mark's begins with an M. */
  predicate Ordinary(h: Header) {
    h.quoted && h.val != "" && h.key != "" && h.key[0] != 'M'
  }

  /** Every header but the title and the category is written only with a value, and quoted, but for the
      migration mark, which is written as it is, exactly if there is one. */
  lemma MarkIsWritten(m: Meta) returns (hs: seq<Header>)
    ensures Headers(m) == [Header("Title", m.title, true), Header("Category", m.category, false)] + hs
    ensures forall h :: h in hs ==> Ordinary(h) || h == Header("Migrated-From", m.migratedFrom, false)
    ensures Header("Migrated-From", m.migratedFrom, false) in hs <==> m.migratedFrom != ""
  {
    var a, b, c, last := FirstOptional(m), MoreHeaders(m), LaterHeaders(m), LastHeaders(m);
    var first := [Header("Title", m.title, true), Header("Category", m.category, false)];
    hs := a + b + c + last;
    FirstAreOrdinary(m);
    LaterAreOrdinary(m);
    LastIsTheMark(m, Header("Migrated-From", m.migratedFrom, false));
    Regroup(first, a, b, c, last);
  }

  lemma Regroup(first: seq<Header>, a: seq<Header>, b: seq<Header>, c: seq<Header>, last: seq<Header>)
    ensures (first + a) + b + c + last == first + (a + b + c + last)
    ensures forall h :: h in a + b + c + last <==> h in a || h in b || h in c || h in last
  {
  }

  function FirstOptional(m: Meta): seq<Header> {
    Optional("Kind", m.kind) + Optional("Status", m.status) + Optional("Assigned-To", m.assignedTo)
    + Optional("Created-By", m.createdBy)
  }

  lemma FirstAreOrdinary(m: Meta)
    ensures FirstHeaders(m) == [Header("Title", m.title, true), Header("Category", m.category, false)] + FirstOptional(m)
    ensures forall h :: h in FirstOptional(m) ==> Ordinary(h)
  {
    var a, b, c, d := Optional("Kind", m.kind), Optional("Status", m.status), Optional("Assigned-To", m.assignedTo), Optional("Created-By", m.createdBy);
    assert FirstOptional(m) == a + b + c + d;
    assert forall h :: h in a || h in b ==> Ordinary(h);
    assert forall h :: h in c || h in d ==> Ordinary(h);
  }

  lemma LaterAreOrdinary(m: Meta)
    ensures forall h :: h in MoreHeaders(m) || h in LaterHeaders(m) ==> Ordinary(h)
  {
  }

  lemma LastIsTheMark(m: Meta, mark: Header)
    requires mark == Header("Migrated-From", m.migratedFrom, false)
    ensures forall h :: h in LastHeaders(m) ==> Ordinary(h) || h == mark
    ensures mark in LastHeaders(m) <==> m.migratedFrom != ""
    ensures !Ordinary(mark)
  {
  }

  /** The keys the writer uses name the fields they are for, except the migration mark: it is
      written with a hyphen and looked for with an underscore. */
  lemma KeysNameFields()
    ensures FieldOf("Title") == IsTitle
    ensures FieldOf("Category") == IsCategory
    ensures FieldOf("Kind") == IsKind
    ensures FieldOf("Status") == IsStatus
    ensures FieldOf("Assigned-To") == IsAssignedTo
    ensures FieldOf("Created-By") == IsCreatedBy
    ensures FieldOf("Created") == IsCreated
    ensures FieldOf("Doc-Ref") == IsDocRef
    ensures FieldOf("Noted-By") == IsNotedBy
    ensures FieldOf("Since") == IsSince
    ensures FieldOf("Resolved") == IsResolved
    ensures FieldOf("Tags") == IsTags
    ensures FieldOf("Migrated-From") == IsNone
  {
    LowerCaseKeys();
  }

  lemma LowerCaseKeys()
    ensures ToLower("Title") == "title"
    ensures ToLower("Category") == "category"
    ensures ToLower("Kind") == "kind"
    ensures ToLower("Status") == "status"
    ensures ToLower("Assigned-To") == "assigned-to"
    ensures ToLower("Created-By") == "created-by"
    ensures ToLower("Created") == "created"
    ensures ToLower("Doc-Ref") == "doc-ref"
    ensures ToLower("Noted-By") == "noted-by"
    ensures ToLower("Since") == "since"
    ensures ToLower("Resolved") == "resolved"
    ensures ToLower("Tags") == "tags"
    ensures ToLower("Migrated-From") == "migrated-from"
  {
  }

  lemma SetOne(m: Meta, h: Header)
    ensures SetFields(m, [h]) == SetField(m, h.key, ValueBack(h))
  {
    assert [h][..0] == [];
    assert SetFields(m, []) == m;
  }

  /** An optional header sets its field, or leaves it as it was when the value is empty. */
  lemma OptionalSets(m: Meta, key: string, val: string, set_: Meta)
    requires val != "" ==> SetField(m, key, val) == set_
    requires val == "" ==> m == set_
    ensures SetFields(m, Optional(key, val)) == set_
  {
    if val != "" {
      SetOne(m, Header(key, val, true));
    } else {
      assert SetFields(m, []) == m;
    }
  }

  /** What parsing makes of a category. */
  function CategoryBack(c: string): string {
    var v := UnquoteYAML(TrimSpace(c));
    if v == "" then "active" else v
  }

  function MetaBack(m: Meta): Meta {
    m.(category := CategoryBack(m.category), migratedFrom := "")
  }

  lemma BaseSets(m: Meta)
    ensures SetFields(EMPTY, [Header("Title", m.title, true), Header("Category", m.category, false)]) ==
              EMPTY.(title := m.title, category := UnquoteYAML(TrimSpace(m.category)))
  {
    KeysNameFields();
    TwoHeaders(EMPTY, Header("Title", m.title, true), Header("Category", m.category, false));
  }

  lemma TwoHeaders(m: Meta, a: Header, b: Header)
    ensures SetFields(m, [a, b]) == SetField(SetField(m, a.key, ValueBack(a)), b.key, ValueBack(b))
  {
    assert [a, b] == [a] + [b];
    SetFieldsAppend(m, [a], [b]);
    SetOne(m, a);
    SetOne(SetFields(m, [a]), b);
  }

  lemma Extend(start: Meta, hs: seq<Header>, before: Meta, key: string, val: string, after: Meta)
    requires SetFields(start, hs) == before
    requires SetField(before, key, val) == after && (val == "" ==> before == after)
    ensures SetFields(start, hs + Optional(key, val)) == after
  {
    SetFieldsAppend(start, hs, Optional(key, val));
    OptionalSets(before, key, val, after);
  }

  lemma FirstHeadersSet(m: Meta)
    ensures SetFields(EMPTY, FirstHeaders(m)) ==
              EMPTY.(title := m.title, category := UnquoteYAML(TrimSpace(m.category)), kind := m.kind, status := m.status,
                     assignedTo := m.assignedTo, createdBy := m.createdBy)
  {
    KeysNameFields();
    var start := EMPTY;
    var h0 := [Header("Title", m.title, true), Header("Category", m.category, false)];
    var m0 := EMPTY.(title := m.title, category := UnquoteYAML(TrimSpace(m.category)));
    BaseSets(m);
    var h1, m1 := h0 + Optional("Kind", m.kind), m0.(kind := m.kind);
    Extend(start, h0, m0, "Kind", m.kind, m1);
    var h2, m2 := h1 + Optional("Status", m.status), m1.(status := m.status);
    Extend(start, h1, m1, "Status", m.status, m2);
    var h3, m3 := h2 + Optional("Assigned-To", m.assignedTo), m2.(assignedTo := m.assignedTo);
    Extend(start, h2, m2, "Assigned-To", m.assignedTo, m3);
    var h4, m4 := h3 + Optional("Created-By", m.createdBy), m3.(createdBy := m.createdBy);
    Extend(start, h3, m3, "Created-By", m.createdBy, m4);
  }

  lemma MoreHeadersSet(start: Meta, m: Meta)
    requires start.created == start.docRef == start.notedBy == ""
    ensures SetFields(start, MoreHeaders(m)) ==
              start.(created := m.created, docRef := m.docRef, notedBy := m.notedBy)
  {
    KeysNameFields();
    var h1, m1 := Optional("Created", m.created), start.(created := m.created);
    OptionalSets(start, "Created", m.created, m1);
    var h2, m2 := h1 + Optional("Doc-Ref", m.docRef), m1.(docRef := m.docRef);
    Extend(start, h1, m1, "Doc-Ref", m.docRef, m2);
    Extend(start, h2, m2, "Noted-By", m.notedBy, m2.(notedBy := m.notedBy));
  }

  lemma LaterHeadersSet(start: Meta, m: Meta)
    requires start.since == start.resolved == ""
    ensures SetFields(start, LaterHeaders(m)) == start.(since := m.since, resolved := m.resolved)
  {
    assert FieldOf("Since") == IsSince && FieldOf("Resolved") == IsResolved by {
      KeysNameFields();
    }
    var h1, m1 := Optional("Since", m.since), start.(since := m.since);
    OptionalSets(start, "Since", m.since, m1);
    Extend(start, h1, m1, "Resolved", m.resolved, m1.(resolved := m.resolved));
  }

  lemma LastHeadersSet(start: Meta, m: Meta)
    requires start.tags == ""
    ensures SetFields(start, LastHeaders(m)) == start.(tags := m.tags)
  {
    KeysNameFields();
    var mig := if m.migratedFrom != "" then [Header("Migrated-From", m.migratedFrom, false)] else [];
    if m.migratedFrom != "" {
      SetOne(start, Header("Migrated-From", m.migratedFrom, false));
    }
    assert SetFields(start, mig) == start;
    Extend(start, mig, start, "Tags", m.tags, start.(tags := m.tags));
  }

  /** Taken together, the written headers set every field but the migration mark. */
  lemma HeadersSetFields(m: Meta)
    ensures SetFields(EMPTY, Headers(m)) == m.(category := UnquoteYAML(TrimSpace(m.category)), migratedFrom := "")
  {
    FirstHeadersSet(m);
    var m1 := SetFields(EMPTY, FirstHeaders(m));
    MoreHeadersSet(m1, m);
    SetFieldsAppend(EMPTY, FirstHeaders(m), MoreHeaders(m));
    var m2 := SetFields(m1, MoreHeaders(m));
    LaterHeadersSet(m2, m);
    SetFieldsAppend(EMPTY, FirstHeaders(m) + MoreHeaders(m), LaterHeaders(m));
    var m3 := SetFields(m2, LaterHeaders(m));
    LastHeadersSet(m3, m);
    SetFieldsAppend(EMPTY, FirstHeaders(m) + MoreHeaders(m) + LaterHeaders(m), LastHeaders(m));
  }

  // ---------- where the headers end ----------

  /** No newline at the end, and none after another. */
  predicate NoBlank(p: string) {
    forall i :: 0 <= i < |p| && p[i] == '\n' ==> i + 1 < |p| && p[i + 1] != '\n'
  }

  lemma {:induction false} BlankIsFound(p: string, x: string)
    requires NoBlank(p)
    ensures IndexOfBlank(p + BLANK_LINE + x) == Some(|p|)
  {
    var s := p + BLANK_LINE + x;
    TwoNewlines(s);
    if p != "" {
      assert s[1..] == p[1..] + BLANK_LINE + x;
      assert forall i :: 0 <= i < |p[1..]| ==> p[1..][i] == p[i + 1];
      BlankIsFound(p[1..], x);
      assert s[0] == p[0] && (|p| > 1 ==> s[1] == p[1]);
    }
  }

  lemma TwoNewlines(s: string)
    ensures HasPrefix(s, BLANK_LINE) <==> |s| >= 2 && s[0] == '\n' && s[1] == '\n'
  {
    if |s| >= 2 {
      assert s[..2] == [s[0], s[1]];
    }
  }

  lemma {:induction false} JoinedHasNoBlank(lines: seq<string>)
    requires forall i :: 0 <= i < |lines| ==> lines[i] != "" && '\n' !in lines[i]
    ensures NoBlank(Join(lines, ['\n']))
    ensures lines != [] ==> Join(lines, ['\n']) != "" && Join(lines, ['\n'])[0] != '\n'
  {
    if |lines| > 1 {
      JoinedHasNoBlank(lines[1..]);
      var a, rest := lines[0], Join(lines[1..], ['\n']);
      var s := a + ['\n'] + rest;
      assert forall i :: 0 <= i < |a| ==> s[i] == a[i];
      forall i | |a| <= i < |s| && s[i] == '\n' ensures i + 1 < |s| && s[i + 1] != '\n' {
        if i > |a| {
          assert s[i] == rest[i - |a| - 1];
        }
      }
    }
  }

  lemma {:induction false} HeaderTextIsJoined(hs: seq<Header>)
    requires hs != []
    ensures HeaderText(hs) == Join(Lines(hs), ['\n']) + "\n"
    decreases |hs|
  {
    var n := |hs| - 1;
    if n == 0 {
      assert hs[..0] == [];
      assert Lines(hs) == [HeaderLine(hs[0])];
    } else {
      HeaderTextIsJoined(hs[..n]);
      assert Lines(hs) == Lines(hs[..n]) + [HeaderLine(hs[n])];
      JoinAppend(Lines(hs[..n]), [HeaderLine(hs[n])], ['\n']);
      assert Join([HeaderLine(hs[n])], ['\n']) == HeaderLine(hs[n]);
    }
  }

  ghost predicate GoodHeader(h: Header) {
    GoodKey(h.key) && '\n' !in h.val
  }

  ghost predicate AllGood(hs: seq<Header>) {
    forall i :: 0 <= i < |hs| ==> GoodHeader(hs[i])
  }

  lemma OptionalIsGood(hs: seq<Header>, key: string, val: string)
    requires AllGood(hs) && GoodKey(key) && '\n' !in val
    ensures AllGood(hs + Optional(key, val))
  {
  }

  lemma AllGoodConcat(a: seq<Header>, b: seq<Header>)
    requires AllGood(a) && AllGood(b)
    ensures AllGood(a + b)
  {
  }

  lemma FirstHeadersAreGood(m: Meta)
    requires OneLine(m)
    ensures AllGood(FirstHeaders(m))
  {
    var h0 := [Header("Title", m.title, true), Header("Category", m.category, false)];
    OptionalIsGood(h0, "Kind", m.kind);
    var h1 := h0 + Optional("Kind", m.kind);
    OptionalIsGood(h1, "Status", m.status);
    var h2 := h1 + Optional("Status", m.status);
    OptionalIsGood(h2, "Assigned-To", m.assignedTo);
    var h3 := h2 + Optional("Assigned-To", m.assignedTo);
    OptionalIsGood(h3, "Created-By", m.createdBy);
    var h4 := h3 + Optional("Created-By", m.createdBy);
  }

  lemma MoreHeadersAreGood(m: Meta)
    requires OneLine(m)
    ensures AllGood(MoreHeaders(m))
  {
    var h1 := Optional("Created", m.created);
    OptionalIsGood(h1, "Doc-Ref", m.docRef);
    OptionalIsGood(h1 + Optional("Doc-Ref", m.docRef), "Noted-By", m.notedBy);
  }

  lemma LaterHeadersAreGood(m: Meta)
    requires OneLine(m)
    ensures AllGood(LaterHeaders(m))
  {
    OptionalIsGood(Optional("Since", m.since), "Resolved", m.resolved);
  }

  lemma HeadersAreGood(m: Meta)
    requires OneLine(m)
    ensures AllGood(Headers(m))
  {
    FirstHeadersAreGood(m);
    MoreHeadersAreGood(m);
    AllGoodConcat(FirstHeaders(m), MoreHeaders(m));
    LaterHeadersAreGood(m);
    AllGoodConcat(FirstHeaders(m) + MoreHeaders(m), LaterHeaders(m));
    OptionalIsGood(if m.migratedFrom != "" then [Header("Migrated-From", m.migratedFrom, false)] else [], "Tags", m.tags);
    AllGoodConcat(FirstHeaders(m) + MoreHeaders(m) + LaterHeaders(m), LastHeaders(m));
  }

  lemma GoodHeaderLine(h: Header)
    requires GoodHeader(h)
    ensures HeaderLine(h) != "" && '\n' !in HeaderLine(h)
  {
    HeaderReadsBack(h);
    if h.quoted {
      QuotedIsOneLine(h.val);
    }
  }

  // ---------- round trips ----------

  /** What parsing makes of a body. */
  function BodyBack(body: string): string {
    TrimPrefix(TrimRightChar(body, '\n') + "\n", "\n")
  }

  /** Parsing what was written: for any metadata without newlines and any body whatever. */
  lemma ParseOfRender(m: Meta, body: string)
    requires OneLine(m)
    ensures Parse(Render(m, body)) == Some((MetaBack(m), BodyBack(body)))
  {
    var hs, t := Headers(m), TrimRightChar(body, '\n') + "\n";
    HeadersAreGood(m);
    HeadersSetFields(m);
    ParseOfHeaders(hs, t);
    assert Render(m, body) == HeaderText(hs) + "\n" + t;
  }

  /** The first blank line of written headers, a blank line and a body is the one after the headers. */
  lemma HeadersSplit(hs: seq<Header>, t: string)
    requires hs != [] && AllGood(hs)
    ensures var s := HeaderText(hs) + "\n" + t;
            && IndexOfBlank(s).Some? && Split(s[..IndexOfBlank(s).value], '\n') == Lines(hs) && s[IndexOfBlank(s).value + 2..] == t
  {
    var lines := Lines(hs);
    var p := Join(lines, ['\n']);
    forall i | 0 <= i < |lines| ensures lines[i] != "" && '\n' !in lines[i] {
      GoodHeaderLine(hs[i]);
    }
    HeaderTextIsJoined(hs);
    var s := p + BLANK_LINE + t;
    assert HeaderText(hs) + "\n" + t == s;
    JoinedHasNoBlank(lines);
    BlankIsFound(p, t);
    SplitJoin(lines, '\n');
    assert s[..|p|] == p && s[|p| + 2..] == t;
  }

  /** Parsing any written headers, a blank line and a body. */
  lemma ParseOfHeaders(hs: seq<Header>, t: string)
    requires hs != [] && AllGood(hs)
    ensures var m := SetFields(EMPTY, hs);
            Parse(HeaderText(hs) + "\n" + t) ==
            Some((if m.category == "" then m.(category := "active") else m, TrimPrefix(t, "\n")))
  {
    HeadersSplit(hs, t);
    HeadersReadBack(hs);
  }

  /** The body in the form files keep it: no newlines at the end but one, unless it is empty. */
  function Normal(body: string): string {
    var t := TrimRightChar(body, '\n');
    if t == "" then "" else t + "\n"
  }

  /** All fields and the normalised body come back exactly when there is no migration mark, the
      category is non-empty, trimmed and not itself quoted, and the body does not start with a
      newline (or is nothing but newlines). */
  lemma RoundTripIff(m: Meta, body: string)
    requires OneLine(m)
    ensures Parse(Render(m, body)) == Some((m, Normal(body))) <==>
              && m.migratedFrom == ""
              && m.category != "" && TrimSpace(m.category) == m.category && UnquoteYAML(m.category) == m.category
              && (TrimRightChar(body, '\n') == "" || body[0] != '\n')
  {
    ParseOfRender(m, body);
    CategoryComesBackIff(m.category);
    BodyComesBackIff(body);
  }

  lemma BodyComesBackIff(body: string)
    ensures BodyBack(body) == Normal(body) <==> TrimRightChar(body, '\n') == "" || body[0] != '\n'
  {
    var t := TrimRightChar(body, '\n');
    if t != "" {
      assert t[0] == body[0];
      assert (t + "\n")[..1] == [t[0]];
    } else {
      assert BodyBack(body) == "";
    }
  }

  lemma {:induction false} ReplaceShrinks(s: string, old_: string, new_: string)
    requires old_ != "" && |new_| <= |old_|
    ensures |ReplaceAll(s, old_, new_)| <= |s|
  {
    if s != "" {
      if HasPrefix(s, old_) {
        ReplaceShrinks(s[|old_|..], old_, new_);
      } else {
        ReplaceShrinks(s[1..], old_, new_);
      }
    }
  }

  lemma UnquoteShrinks(v: string)
    ensures |UnquoteYAML(v)| <= |v| && (|UnquoteYAML(v)| == |v| ==> UnquoteYAML(v) == v)
  {
    if UnquoteYAML(v) != v {
      var inner := v[1..|v| - 1];
      ReplaceShrinks(inner, ESCAPED_QUOTE, QUOTE);
      ReplaceShrinks(ReplaceAll(inner, ESCAPED_QUOTE, QUOTE), ESCAPED_BACKSLASH, BACKSLASH);
    }
  }

  lemma CategoryComesBackIff(c: string)
    ensures CategoryBack(c) == c <==> c != "" && TrimSpace(c) == c && UnquoteYAML(c) == c
  {
    TrimSpaceShrinks(c);
    UnquoteShrinks(TrimSpace(c));
    if c == "active" {
      TrimmedIsFixed(c);
    }
  }

  /** A written file is its header lines, up to the first blank line, and the trimmed body. */
  lemma RenderSplits(m: Meta, body: string)
    requires OneLine(m)
    ensures var s := Render(m, body);
            && IndexOfBlank(s).Some?
            && Split(s[..IndexOfBlank(s).value], '\n') == Lines(Headers(m))
            && s[IndexOfBlank(s).value + 2..] == TrimRightChar(body, '\n') + "\n"
  {
    var hs, t := Headers(m), TrimRightChar(body, '\n') + "\n";
    HeadersAreGood(m);
    HeadersSplit(hs, t);
    assert Render(m, body) == HeaderText(hs) + "\n" + t;
  }

  /** Two files with the same bytes have the same lines and the same body. */
  lemma SameBytes(m: Meta, body: string, m': Meta, body': string)
    requires OneLine(m) && OneLine(m') && Render(m, body) == Render(m', body')
    ensures Lines(Headers(m)) == Lines(Headers(m'))
    ensures TrimRightChar(body, '\n') == TrimRightChar(body', '\n')
  {
    RenderSplits(m, body);
    RenderSplits(m', body');
    var t, t' := TrimRightChar(body, '\n'), TrimRightChar(body', '\n');
    assert t == (t + "\n")[..|t + "\n"| - 1] && t' == (t' + "\n")[..|t' + "\n"| - 1];
  }

  /** The same lines but for category and migration mark: then these are the same, too. */
  lemma SameLines(m: Meta, c: string)
    requires Lines(Headers(m)) == Lines(Headers(m.(category := c, migratedFrom := "")))
    ensures m.category == c && m.migratedFrom == ""
  {
    var m' := m.(category := c, migratedFrom := "");
    assert |Lines(Headers(m))| == |Headers(m)| && |Lines(Headers(m'))| == |Headers(m')|;
    assert Lines(Headers(m))[1] == "Category: " + m.category && Lines(Headers(m'))[1] == "Category: " + c;
    assert m.category == ("Category: " + m.category)[10..] && c == ("Category: " + c)[10..];
  }

  lemma BackIsOneLine(m: Meta)
    requires OneLine(m)
    ensures OneLine(MetaBack(m))
  {
    var c := TrimSpace(m.category);
    TrimSpaceKeepsOut(m.category, '\n');
    if |c| >= 2 && c[0] == '"' && c[|c| - 1] == '"' {
      ReplaceKeepsOut(c[1..|c| - 1], ESCAPED_QUOTE, QUOTE, '\n');
      ReplaceKeepsOut(ReplaceAll(c[1..|c| - 1], ESCAPED_QUOTE, QUOTE), ESCAPED_BACKSLASH, BACKSLASH, '\n');
    }
  }

  /** Trimming what parsing makes of a body gives the trimmed body only if no newline came first. */
  lemma BodyIsStableIff(body: string)
    ensures TrimRightChar(BodyBack(body), '\n') == TrimRightChar(body, '\n') <==> TrimRightChar(body, '\n') == "" || body[0] != '\n'
  {
    var t := TrimRightChar(body, '\n');
    if t != "" {
      TrimRightCharAppend(t, '\n');
      assert (t + "\n")[..1] == [t[0]] && t[0] == body[0];
    }
  }

  /** Reading a file that was written and writing it again gives the same bytes exactly when everything
      came back: an empty or quoted category, a migration mark and a newline before the body each
      change the file. */
  lemma RewritingIsStableIff(m: Meta, body: string)
    requires OneLine(m)
    ensures var r := Parse(Render(m, body));
            && r.Some?
            && (Render(r.value.0, r.value.1) == Render(m, body) <==> r == Some((m, Normal(body))))
            && (Render(r.value.0, r.value.1) == Render(m, body) <==>
                  && m.migratedFrom == ""
                  && m.category != "" && TrimSpace(m.category) == m.category && UnquoteYAML(m.category) == m.category
                  && (TrimRightChar(body, '\n') == "" || body[0] != '\n'))
  {
    ParseOfRender(m, body);
    RoundTripIff(m, body);
    BodyIsStableIff(body);
    CategoryComesBackIff(m.category);
    if Render(MetaBack(m), BodyBack(body)) == Render(m, body) {
      BackIsOneLine(m);
      SameBytes(m, body, MetaBack(m), BodyBack(body));
      SameLines(m, CategoryBack(m.category));
    }
  }

  /** The migration mark never survives a rewrite: it is written under a key that is not read. */
  lemma MigrationMarkIsLost(m: Meta, body: string)
    requires OneLine(m)
    ensures Parse(Render(m, body)).Some? && Parse(Render(m, body)).value.0.migratedFrom == ""
  {
    ParseOfRender(m, body);
  }

  // ---------- what any file is read as ----------

  /** A header line is what has a colon in it; its key is before the first one. */
  lemma HeaderIff(line: string, k: string, v: string)
    ensures ParseHeader(line) == Some((k, v)) <==>
              exists a, b :: TrimSpace(line) == a + ":" + b && ':' !in a && k == TrimSpace(a) && v == UnquoteYAML(TrimSpace(b))
    ensures ParseHeader(line).None? <==> ':' !in TrimSpace(line)
  {
    var l := TrimSpace(line);
    if ':' in l {
      var i := IndexOf(l, ':').value;
      assert l == l[..i] + ":" + l[i + 1..];
    }
    forall a, b | l == a + ":" + b && ':' !in a ensures IndexOf(l, ':') == Some(|a|) && l[..|a|] == a && l[|a| + 1..] == b {
      assert a + ":" + b == a + [':'] + b;
      IndexOfAfter(a, ':', b);
    }
  }

  /** The keys that name a field, in lower case. */
  function Keys(f: Field): set<string> {
    match f
    case IsTitle => {"title"}
    case IsCategory => {"category"}
    case IsKind => {"kind"}
    case IsStatus => {"status"}
    case IsAssignedTo => {"assigned-to"}
    case IsCreatedBy => {"created-by"}
    case IsCreated => {"created"}
    case IsDocRef => {"doc-ref", "doc_ref"}
    case IsNotedBy => {"noted-by"}
    case IsSince => {"since"}
    case IsMigratedFrom => {"migrated_from"}
    case IsTags => {"tags"}
    case IsResolved => {"resolved"}
    case IsNone => {}
  }

  function Get(m: Meta, f: Field): string {
    match f
    case IsTitle => m.title
    case IsCategory => m.category
    case IsKind => m.kind
    case IsStatus => m.status
    case IsAssignedTo => m.assignedTo
    case IsCreatedBy => m.createdBy
    case IsCreated => m.created
    case IsDocRef => m.docRef
    case IsNotedBy => m.notedBy
    case IsSince => m.since
    case IsMigratedFrom => m.migratedFrom
    case IsTags => m.tags
    case IsResolved => m.resolved
    case IsNone => ""
  }

  lemma FieldIff(key: string, f: Field)
    requires f != IsNone
    ensures FieldOf(key) == f <==> ToLower(key) in Keys(f)
  {
  }

  lemma SetThenGet(m: Meta, f: Field, g: Field, val: string)
    requires g != IsNone
    ensures Get(Set(m, f, val), g) == if f == g then val else Get(m, g)
  {
  }

  /** The value of the last header line with one of these keys, or nothing. */
  function LastValue(lines: seq<string>, keys: set<string>): string
    decreases |lines|
  {
    if lines == [] then ""
    else
      var n := |lines| - 1;
      match ParseHeader(lines[n])
      case None => LastValue(lines[..n], keys)
      case Some(kv) => if ToLower(kv.0) in keys then kv.1 else LastValue(lines[..n], keys)
  }

  lemma {:induction false} HeadersAre(lines: seq<string>, f: Field)
    requires f != IsNone
    ensures Get(ParseHeaders(lines).0, f) == LastValue(lines, Keys(f))
    ensures ParseHeaders(lines).1 <==> exists i :: 0 <= i < |lines| && ParseHeader(lines[i]).Some?
    decreases |lines|
  {
    if lines != [] {
      var n := |lines| - 1;
      HeadersAre(lines[..n], f);
      match ParseHeader(lines[n])
      case None =>
      case Some(kv) =>
        FieldIff(kv.0, f);
        SetThenGet(ParseHeaders(lines[..n]).0, FieldOf(kv.0), f, kv.1);
    }
  }

  /** The first blank line is the first place with two newlines. */
  lemma {:induction false} BlankIs(s: string)
    ensures IndexOfBlank(s).None? ==> forall j :: 0 <= j < |s| - 1 ==> !(s[j] == '\n' && s[j + 1] == '\n')
    ensures IndexOfBlank(s).Some? ==>
              var i := IndexOfBlank(s).value;
              && i + 1 < |s| && s[i] == '\n' && s[i + 1] == '\n'
              && forall j :: 0 <= j < i ==> !(s[j] == '\n' && s[j + 1] == '\n')
  {
    if s != "" {
      TwoNewlines(s);
      if !HasPrefix(s, BLANK_LINE) {
        BlankIs(s[1..]);
        assert forall j :: 0 < j < |s| ==> s[j] == s[1..][j - 1];
      }
    }
  }

  /** What any text is read as: nothing unless it has a blank line and a header before it; otherwise every
      field has the last value given for it, in whatever case its key is, the category is active if it was
      given none, and the body is what follows, without one more newline. */
  lemma ReadIs(s: string, f: Field)
    requires f != IsNone
    ensures var lines := if IndexOfBlank(s).Some? then Split(s[..IndexOfBlank(s).value], '\n') else [];
            && (Parse(s).Some? <==> exists i :: 0 <= i < |lines| && ':' in TrimSpace(lines[i]))
            && (Parse(s).Some? ==>
                  var (m, body) := Parse(s).value;
                  var rest := s[IndexOfBlank(s).value + 2..];
                  && Get(m, f) == (if f == IsCategory && LastValue(lines, Keys(f)) == "" then "active" else LastValue(lines, Keys(f)))
                  && body == if rest != "" && rest[0] == '\n' then rest[1..] else rest)
  {
    if IndexOfBlank(s).Some? {
      var i := IndexOfBlank(s).value;
      var lines := Split(s[..i], '\n');
      HeadersAre(lines, f);
      HeadersAre(lines, IsCategory);
      forall j | 0 <= j < |lines| ensures ParseHeader(lines[j]).Some? <==> ':' in TrimSpace(lines[j]) {
        HeaderIff(lines[j], "", "");
      }
      var rest := s[i + 2..];
      if rest != "" {
        assert rest[..1] == [rest[0]];
      }
    }
  }
}
