/** Report files: headers in the style of RFC 2822 and a body (internal/reports/types.go). */
module Reports {
  import opened Text

  datatype Report = Report(messageId: string, date: string, sender: string, subject: string, to: string,
                           tags: seq<string>, taskRef: string, attachments: seq<string>, body: string, created: int)

  /** What the parser asks of its surroundings: RFC 3339 dates and plain epochs as numbers, the
      time now, and the way a time is printed. */
  datatype Calendar = Calendar(date: string -> Option<int>, epoch: string -> Option<int>, print_: int -> string, now: int)

  // ---------- writing ----------

  datatype Header = Header(key: string, val: string)

  function HeaderLine(h: Header): string {
    h.key + ": " + h.val
  }

  function HeaderText(hs: seq<Header>): string
    decreases |hs|
  {
    if hs == [] then "" else HeaderText(hs[..|hs| - 1]) + HeaderLine(hs[|hs| - 1]) + "\n"
  }

  function If(present: bool, key: string, val: string): seq<Header> {
    if present then [Header(key, val)] else []
  }

  function IdHeaders(r: Report): seq<Header> {
    [Header("Message-ID", "<" + r.messageId + ">"), Header("Date", r.date)]
  }

  function NameHeaders(r: Report): seq<Header> {
    [Header("From", r.sender), Header("Subject", r.subject)]
  }

  function FirstHeaders(r: Report): seq<Header> {
    IdHeaders(r) + NameHeaders(r)
  }

  function MoreHeaders(r: Report): seq<Header> {
    If(r.to != "", "To", r.to) + If(r.tags != [], "Tags", Join(r.tags, ","))
    + If(r.taskRef != "", "Task-Ref", r.taskRef)
  }

  function LastHeaders(r: Report): seq<Header> {
    If(r.attachments != [], "Attachments", Join(r.attachments, ",")) + [Header("Created", r.date)]
  }

  function Headers(r: Report): seq<Header> {
    FirstHeaders(r) + MoreHeaders(r) + LastHeaders(r)
  }

  /** What toRFC2822String writes. */
  function Render(r: Report): string {
    HeaderText(Headers(r)) + "\n" + r.body
  }

  lemma WriteOne(hs: seq<Header>, h: Header)
    ensures HeaderText(hs + [h]) == HeaderText(hs) + HeaderLine(h) + "\n"
  {
    assert (hs + [h])[..|hs + [h]| - 1] == hs;
  }

  /** One builder step: a header line, when it is wanted. */
  method WriteField(b: string, ghost hs: seq<Header>, present: bool, key: string, val: string) returns (out: string)
    requires b == HeaderText(hs)
    ensures out == HeaderText(hs + If(present, key, val))
  {
    out := b;
    if present {
      WriteOne(hs, Header(key, val));
      out := out + key + ": " + val + "\n";
    } else {
      assert hs + [] == hs;
    }
  }

  lemma Assoc(hs: seq<Header>, a: seq<Header>, b: seq<Header>, c: seq<Header>)
    ensures hs + a + b == hs + (a + b)
    ensures hs + a + b + c == hs + (a + b + c)
  {
  }

  method WriteFirst(r: Report) returns (b: string)
    ensures b == HeaderText(FirstHeaders(r))
  {
    b := WriteField("", [], true, "Message-ID", "<" + r.messageId + ">");
    ghost var id := [Header("Message-ID", "<" + r.messageId + ">")];
    assert [] + id == id;
    b := WriteField(b, id, true, "Date", r.date);
    ghost var date := [Header("Date", r.date)];
    b := WriteField(b, id + date, true, "From", r.sender);
    ghost var sender := [Header("From", r.sender)];
    b := WriteField(b, id + date + sender, true, "Subject", r.subject);
    Assoc(id + date, sender, [Header("Subject", r.subject)], []);
    assert id + date == [id[0], date[0]];
    assert sender + [Header("Subject", r.subject)] == NameHeaders(r);
  }

  method WriteMore(r: Report, first: string, ghost hs: seq<Header>) returns (b: string)
    requires first == HeaderText(hs)
    ensures b == HeaderText(hs + MoreHeaders(r))
  {
    ghost var to, tags := If(r.to != "", "To", r.to), If(r.tags != [], "Tags", Join(r.tags, ","));
    b := WriteField(first, hs, r.to != "", "To", r.to);
    b := WriteField(b, hs + to, r.tags != [], "Tags", Join(r.tags, ","));
    b := WriteField(b, hs + to + tags, r.taskRef != "", "Task-Ref", r.taskRef);
    Assoc(hs, to, tags, If(r.taskRef != "", "Task-Ref", r.taskRef));
  }

  method WriteLast(r: Report, more: string, ghost hs: seq<Header>) returns (b: string)
    requires more == HeaderText(hs)
    ensures b == HeaderText(hs + LastHeaders(r))
  {
    ghost var files := If(r.attachments != [], "Attachments", Join(r.attachments, ","));
    b := WriteField(more, hs, r.attachments != [], "Attachments", Join(r.attachments, ","));
    b := WriteField(b, hs + files, true, "Created", r.date);
    Assoc(hs, files, [Header("Created", r.date)], []);
  }

  /** toRFC2822String */
  method ToRFC2822String(r: Report) returns (b: string)
    ensures b == Render(r)
  {
    b := WriteFirst(r);
    b := WriteMore(r, b, FirstHeaders(r));
    b := WriteLast(r, b, FirstHeaders(r) + MoreHeaders(r));
    b := b + "\n";
    b := b + r.body;
  }

  // ---------- parsing ----------

  datatype Field = IsId | IsDate | IsFrom | IsSubject | IsTo | IsTags | IsTaskRef | IsAttachments | IsCreated | IsNone

  function FieldOf(key: string): Field {
    var k := ToLower(key);
    if k == "message-id" then IsId
    else if k == "date" then IsDate
    else if k == "from" then IsFrom
    else if k == "subject" then IsSubject
    else if k == "to" then IsTo
    else if k == "tags" then IsTags
    else if k == "task-ref" then IsTaskRef
    else if k == "attachments" then IsAttachments
    else if k == "created" then IsCreated
    else IsNone
  }

  predicate Bracket(c: char) {
    c == '<' || c == '>'
  }

  /** strings.Trim(s, "<>") */
  function TrimBrackets(s: string): (t: string)
    ensures t == "" || (!Bracket(t[0]) && !Bracket(t[|t| - 1]))
    ensures t == "" <==> forall i :: 0 <= i < |s| ==> Bracket(s[i])
    ensures |t| <= |s| && (|t| == |s| ==> t == s)
    decreases |s|
  {
    if s == "" then ""
    else if Bracket(s[0]) then
      assert s == [s[0]] + s[1..];
      TrimBrackets(s[1..])
    else if Bracket(s[|s| - 1]) then
      assert s == s[..|s| - 1] + [s[|s| - 1]];
      TrimBrackets(s[..|s| - 1])
    else s
  }

  function EpochOf(cal: Calendar, val: string): Option<int> {
    if val == "" then None
    else match cal.date(val)
      case Some(t) => Some(t)
      case None => cal.epoch(val)
  }

  function Set(cal: Calendar, r: Report, f: Field, val: string): Report {
    match f
    case IsId => r.(messageId := TrimBrackets(val))
    case IsDate => r.(date := val, created := if cal.date(val).Some? then cal.date(val).value else r.created)
    case IsFrom => r.(sender := val)
    case IsSubject => r.(subject := val)
    case IsTo => r.(to := val)
    case IsTags => if val != "" then r.(tags := Split(val, ',')) else r
    case IsTaskRef => r.(taskRef := val)
    case IsAttachments => if val != "" then r.(attachments := Split(val, ',')) else r
    case IsCreated => r.(created := if EpochOf(cal, val).Some? then EpochOf(cal, val).value else r.created)
    case IsNone => r
  }

  /** A header line: key and value on the two sides of its first colon, both trimmed. */
  function ParseHeader(line: string): Option<(string, string)> {
    match IndexOf(line, ':')
    case None => None
    case Some(i) => Some((TrimSpace(line[..i]), TrimSpace(line[i + 1..])))
  }

  function ParseLine(cal: Calendar, r: Report, line: string): Report {
    match ParseHeader(line)
    case None => r
    case Some(kv) => Set(cal, r, FieldOf(kv.0), kv.1)
  }

  function ParseLines(cal: Calendar, r: Report, lines: seq<string>): Report
    decreases |lines|
  {
    if lines == [] then r
    else ParseLine(cal, ParseLines(cal, r, lines[..|lines| - 1]), lines[|lines| - 1])
  }

  /** The first line that is blank. */
  function BlankLine(lines: seq<string>): (r: Option<nat>)
    ensures r.None? ==> forall i :: 0 <= i < |lines| ==> TrimSpace(lines[i]) != ""
    ensures r.Some? ==> r.value < |lines| && TrimSpace(lines[r.value]) == ""
    ensures r.Some? ==> forall i :: 0 <= i < r.value ==> TrimSpace(lines[i]) != ""
  {
    if lines == [] then None
    else if TrimSpace(lines[0]) == "" then Some(0)
    else match BlankLine(lines[1..])
      case None => None
      case Some(i) => Some(i + 1)
  }

  /** Where the headers end and where the body starts: without a blank line, every line is read
      as a header and is part of the body as well. */
  function Parts(lines: seq<string>): (seq<string>, seq<string>) {
    match BlankLine(lines)
    case None => (lines, lines)
    case Some(i) => (lines[..i], lines[i + 1..])
  }

  function Blank(body: string): Report {
    Report("", "", "", "", "", [], "", [], body, 0)
  }

  function Finish(cal: Calendar, r: Report, filename: string): Report {
    var named := if r.messageId == "" then r.(messageId := filename) else r;
    if named.created == 0 then named.(created := cal.now, date := cal.print_(cal.now)) else named
  }

  /** parseRFC2822Format */
  function Parse(cal: Calendar, s: string, filename: string): Report {
    var (headers, rest) := Parts(Split(s, '\n'));
    Finish(cal, ParseLines(cal, Blank(TrimRightChar(Join(rest, "\n"), '\n')), headers), filename)
  }

  /** The loop that collects header lines up to the first blank one. */
  method CollectHeaders(lines: seq<string>) returns (headers: seq<string>, bodyStart: nat)
    ensures bodyStart <= |lines| && (headers, lines[bodyStart..]) == Parts(lines)
  {
    headers, bodyStart := [], 0;
    var i := 0;
    while i < |lines|
      invariant 0 <= i <= |lines| && headers == lines[..i] && bodyStart == 0
      invariant forall k :: 0 <= k < i ==> TrimSpace(lines[k]) != ""
    {
      if TrimSpace(lines[i]) == "" {
        bodyStart := i + 1;
        break;
      }
      headers := headers + [lines[i]];
      i := i + 1;
    }
    assert i == |lines| ==> lines[..i] == lines && lines[0..] == lines;
    assert BlankLine(lines) == if i < |lines| then Some(i) else None;
  }

  /** The loop over the header lines. */
  method ReadHeaders(cal: Calendar, start: Report, headers: seq<string>) returns (r: Report)
    ensures r == ParseLines(cal, start, headers)
  {
    r := start;
    for k := 0 to |headers|
      invariant r == ParseLines(cal, start, headers[..k])
    {
      assert headers[..k + 1][..k] == headers[..k];
      var kv := ParseHeader(headers[k]);
      if kv.None? {
        continue;
      }
      r := Set(cal, r, FieldOf(kv.value.0), kv.value.1);
    }
    assert headers[..|headers|] == headers;
  }

  method ParseRFC2822Format(cal: Calendar, s: string, filename: string) returns (r: Report)
    ensures r == Parse(cal, s, filename)
  {
    var lines := Split(s, '\n');
    var headers, bodyStart := CollectHeaders(lines);
    var body := Join(lines[bodyStart..], "\n");
    body := TrimRightChar(body, '\n');
    r := ReadHeaders(cal, Blank(body), headers);
    if r.messageId == "" {
      r := r.(messageId := filename);
    }
    if r.created == 0 {
      r := r.(created := cal.now, date := cal.print_(cal.now));
    }
  }

  /** The whole file comes back as the body, headers and all, exactly when it has no blank line, or
      nothing but newlines. */
  lemma HeadersRepeatedInBody(cal: Calendar, s: string, filename: string)
    ensures Parse(cal, s, filename).body == TrimRightChar(s, '\n') <==>
              BlankLine(Split(s, '\n')).None? || forall i :: 0 <= i < |s| ==> s[i] == '\n'
  {
    var lines := Split(s, '\n');
    JoinSplit(s, '\n');
    BodyOfParse(cal, s, filename);
    if BlankLine(lines).Some? {
      RestIsWholeIff(lines, BlankLine(lines).value);
    }
    AllTrimmed(s);
  }

  lemma BodyOfParse(cal: Calendar, s: string, filename: string)
    ensures Parse(cal, s, filename).body == TrimRightChar(Join(Parts(Split(s, '\n')).1, "\n"), '\n')
  {
    var (headers, rest) := Parts(Split(s, '\n'));
    BodyIsKept(cal, Blank(TrimRightChar(Join(rest, "\n"), '\n')), headers);
  }

  lemma RestIsWholeIff(lines: seq<string>, i: nat)
    requires i < |lines|
    ensures TrimRightChar(Join(lines[i + 1..], "\n"), '\n') == TrimRightChar(Join(lines, "\n"), '\n') <==>
              TrimRightChar(Join(lines, "\n"), '\n') == ""
  {
    var before := AfterBlank(lines, i);
    TrimRightCharOf(before, Join(lines[i + 1..], "\n"), '\n');
  }

  /** What comes before the body is not empty, or there is no text at all. */
  lemma AfterBlank(lines: seq<string>, i: nat) returns (before: string)
    requires i < |lines|
    ensures Join(lines, "\n") == before + Join(lines[i + 1..], "\n")
    ensures before != "" || Join(lines, "\n") == ""
  {
    var first, rest := lines[..i + 1], lines[i + 1..];
    assert lines == first + rest;
    if rest == [] {
      assert first == lines;
      before := Join(lines, "\n");
      assert before + "" == before;
    } else {
      JoinAppend(first, rest, "\n");
      before := Join(first, "\n") + "\n";
    }
  }

  lemma AllTrimmed(s: string)
    ensures TrimRightChar(s, '\n') == "" <==> forall i :: 0 <= i < |s| ==> s[i] == '\n'
  {
    var t := TrimRightChar(s, '\n');
    if t != "" {
      assert s[|t| - 1] == t[|t| - 1];
    }
  }

  /** Such files: a subject line and nothing else. The subject is read, and the line is the body. */
  lemma SubjectIsBodyToo(cal: Calendar, subject: string, filename: string)
    requires '\n' !in subject && Trimmed(subject)
    ensures var file := HeaderLine(Header("Subject", subject));
            Parse(cal, file, filename).subject == subject && Parse(cal, file, filename).body == file
  {
    var h := Header("Subject", subject);
    var file := HeaderLine(h);
    assert GoodHeader(h) by {
      FirstKeysAreGood();
    }
    HeaderReadsBack(h);
    TrimmedIsFixed(subject);
    NothingToTrim(file);
    OneLineFile(file);
    BodyOfParse(cal, file, filename);
    OneLineParses(cal, Blank(file), file, subject);
  }

  lemma OneLineFile(file: string)
    requires '\n' !in file && TrimSpace(file) != ""
    ensures Split(file, '\n') == [file] && Parts([file]) == ([file], [file])
  {
    SplitNoSep(file, '\n');
  }

  lemma OneLineParses(cal: Calendar, start: Report, line: string, subject: string)
    requires ParseHeader(line) == Some(("Subject", subject))
    ensures ParseLines(cal, start, [line]) == start.(subject := subject)
  {
    assert FieldOf("Subject") == IsSubject by {
      KeysNameFields();
    }
    assert [line][..0] == [];
    assert ParseLines(cal, start, []) == start;
  }

  lemma NothingToTrim(s: string)
    requires '\n' !in s
    ensures TrimRightChar(s, '\n') == s
  {
  }

  lemma {:induction false} BodyIsKept(cal: Calendar, r: Report, lines: seq<string>)
    ensures ParseLines(cal, r, lines).body == r.body
    decreases |lines|
  {
    if lines != [] {
      BodyIsKept(cal, r, lines[..|lines| - 1]);
    }
  }

  // ---------- reading back what was written ----------

  predicate OneLineEach(parts: seq<string>) {
    forall i :: 0 <= i < |parts| ==> '\n' !in parts[i]
  }

  /** No newline in any header field; the body is free. */
  predicate OneLine(r: Report) {
    && '\n' !in r.messageId && '\n' !in r.date && '\n' !in r.sender && '\n' !in r.subject && '\n' !in r.to
    && '\n' !in r.taskRef && OneLineEach(r.tags) && OneLineEach(r.attachments)
  }

  ghost predicate GoodHeader(h: Header) {
    GoodKey(h.key) && '\n' !in h.val
  }

  ghost predicate AllGood(hs: seq<Header>) {
    forall i :: 0 <= i < |hs| ==> GoodHeader(hs[i])
  }

  function SetFields(cal: Calendar, r: Report, hs: seq<Header>): Report
    decreases |hs|
  {
    if hs == [] then r
    else
      var h := hs[|hs| - 1];
      Set(cal, SetFields(cal, r, hs[..|hs| - 1]), FieldOf(h.key), TrimSpace(h.val))
  }

  function Lines(hs: seq<Header>): seq<string> {
    seq(|hs|, i requires 0 <= i < |hs| => HeaderLine(hs[i]))
  }

  /** A written header reads as its key and its trimmed value, is one line, and is not blank. */
  lemma HeaderReadsBack(h: Header)
    requires GoodHeader(h)
    ensures ParseHeader(HeaderLine(h)) == Some((h.key, TrimSpace(h.val)))
    ensures '\n' !in HeaderLine(h) && TrimSpace(HeaderLine(h)) != ""
  {
    KeyAndRest(h.key, " " + h.val);
    assert HeaderLine(h) == h.key + ":" + (" " + h.val);
    TrimIgnoresFrontSpace(h.val);
    assert HeaderLine(h)[0] == h.key[0];
    TrimSpaceNonEmpty(HeaderLine(h), 0);
  }

  lemma KeyAndRest(key: string, rest: string)
    requires GoodKey(key)
    ensures ParseHeader(key + ":" + rest) == Some((key, TrimSpace(rest)))
  {
    var line := key + ":" + rest;
    IndexOfAfter(key, ':', rest);
    assert line[..|key|] == key && line[|key| + 1..] == rest;
    TrimmedIsFixed(key);
  }

  lemma {:induction false} HeadersReadBack(cal: Calendar, r: Report, hs: seq<Header>)
    requires AllGood(hs)
    ensures ParseLines(cal, r, Lines(hs)) == SetFields(cal, r, hs)
    decreases |hs|
  {
    if hs != [] {
      var n := |hs| - 1;
      HeaderReadsBack(hs[n]);
      assert Lines(hs)[..n] == Lines(hs[..n]);
      HeadersReadBack(cal, r, hs[..n]);
    }
  }

  lemma Regroup(text: string, line: string, end: string, rest: string)
    ensures (text + line + end) + rest == text + (line + end + rest)
  {
  }

  lemma SplitLine(line: string, rest: string)
    requires '\n' !in line
    ensures Split(line + "\n" + rest, '\n') == [line] + Split(rest, '\n')
  {
    SplitAt(line, '\n', rest);
    SplitNoSep(line, '\n');
  }

  lemma LinesOfLast(hs: seq<Header>)
    requires hs != []
    ensures Lines(hs) == Lines(hs[..|hs| - 1]) + [HeaderLine(hs[|hs| - 1])]
  {
  }

  lemma Append(a: seq<string>, line: string, b: seq<string>)
    ensures a + ([line] + b) == a + [line] + b
  {
  }

  lemma {:induction false} SplitHeaderText(hs: seq<Header>, rest: string)
    requires AllGood(hs)
    ensures Split(HeaderText(hs) + rest, '\n') == Lines(hs) + Split(rest, '\n')
    decreases |hs|
  {
    if hs == [] {
      assert HeaderText(hs) + rest == rest;
      assert Lines(hs) == [];
    } else {
      var before, line := hs[..|hs| - 1], HeaderLine(hs[|hs| - 1]);
      var tail := line + "\n" + rest;
      HeaderReadsBack(hs[|hs| - 1]);
      Regroup(HeaderText(before), line, "\n", rest);
      SplitHeaderText(before, tail);
      SplitLine(line, rest);
      LinesOfLast(hs);
      Append(Lines(before), line, Split(rest, '\n'));
    }
  }

  /** The empty line ends the headers and the whole rest is the body. */
  lemma PartsOfText(hs: seq<Header>, body: string)
    requires AllGood(hs)
    ensures Parts(Split(HeaderText(hs) + "\n" + body, '\n')) == (Lines(hs), Split(body, '\n'))
  {
    Regroup(HeaderText(hs), "", "\n", body);
    assert HeaderText(hs) + "" == HeaderText(hs);
    SplitHeaderText(hs, "" + "\n" + body);
    SplitLine("", body);
    forall i | 0 <= i < |hs| ensures TrimSpace(Lines(hs)[i]) != "" {
      HeaderReadsBack(hs[i]);
    }
    PartsAtEmpty(Lines(hs), Split(body, '\n'));
  }

  lemma PartsAtEmpty(headers: seq<string>, rest: seq<string>)
    requires forall i :: 0 <= i < |headers| ==> TrimSpace(headers[i]) != ""
    ensures Parts(headers + ([""] + rest)) == (headers, rest)
  {
    var lines := headers + ([""] + rest);
    assert forall i :: 0 <= i < |headers| ==> lines[i] == headers[i];
    assert lines[|headers|] == "" && TrimSpace("") == "";
    assert BlankLine(lines) == Some(|headers|);
    assert lines[..|headers|] == headers && lines[|headers| + 1..] == rest;
  }

  lemma ParseOfHeaders(cal: Calendar, hs: seq<Header>, body: string, filename: string)
    requires AllGood(hs)
    ensures Parse(cal, HeaderText(hs) + "\n" + body, filename) ==
              Finish(cal, SetFields(cal, Blank(TrimRightChar(body, '\n')), hs), filename)
  {
    PartsOfText(hs, body);
    JoinSplit(body, '\n');
    HeadersReadBack(cal, Blank(TrimRightChar(body, '\n')), hs);
  }

  // ---------- the fields that come back ----------

  lemma KeysNameFields()
    ensures FieldOf("Message-ID") == IsId
    ensures FieldOf("Date") == IsDate
    ensures FieldOf("From") == IsFrom
    ensures FieldOf("Subject") == IsSubject
    ensures FieldOf("To") == IsTo
    ensures FieldOf("Tags") == IsTags
    ensures FieldOf("Task-Ref") == IsTaskRef
    ensures FieldOf("Attachments") == IsAttachments
    ensures FieldOf("Created") == IsCreated
  {
    LowerCaseKeys();
  }

  lemma LowerCaseKeys()
    ensures ToLower("Message-ID") == "message-id"
    ensures ToLower("Date") == "date"
    ensures ToLower("From") == "from"
    ensures ToLower("Subject") == "subject"
    ensures ToLower("To") == "to"
    ensures ToLower("Tags") == "tags"
    ensures ToLower("Task-Ref") == "task-ref"
    ensures ToLower("Attachments") == "attachments"
    ensures ToLower("Created") == "created"
  {
  }

  lemma Extend(cal: Calendar, start: Report, hs: seq<Header>, present: bool, key: string, val: string, after: Report)
    requires var before := SetFields(cal, start, hs);
             after == if present then Set(cal, before, FieldOf(key), TrimSpace(val)) else before
    ensures SetFields(cal, start, hs + If(present, key, val)) == after
  {
    if present {
      var h := Header(key, val);
      assert (hs + [h])[..|hs + [h]| - 1] == hs;
    } else {
      assert hs + [] == hs;
    }
  }

  lemma {:induction false} SetFieldsAppend(cal: Calendar, r: Report, a: seq<Header>, b: seq<Header>)
    ensures SetFields(cal, r, a + b) == SetFields(cal, SetFields(cal, r, a), b)
    decreases |b|
  {
    if b == [] {
      assert a + b == a;
    } else {
      assert (a + b)[..|a + b| - 1] == a + b[..|b| - 1];
      SetFieldsAppend(cal, r, a, b[..|b| - 1]);
    }
  }

  /** What parsing makes of an id, a list and a date header. */
  function IdBack(id: string): string {
    TrimBrackets("<" + id + ">")
  }

  function ListBack(parts: seq<string>): seq<string> {
    var v := TrimSpace(Join(parts, ","));
    if parts == [] || v == "" then [] else Split(v, ',')
  }

  function CreatedBack(cal: Calendar, date: string): int {
    match EpochOf(cal, TrimSpace(date))
    case Some(t) => t
    case None => match cal.date(TrimSpace(date))
      case Some(t) => t
      case None => 0
  }

  lemma TwoSet(cal: Calendar, start: Report, a: Header, b: Header)
    ensures SetFields(cal, start, [a, b]) ==
              Set(cal, Set(cal, start, FieldOf(a.key), TrimSpace(a.val)), FieldOf(b.key), TrimSpace(b.val))
  {
    assert [a, b][..1] == [a] && [a][..0] == [];
    assert SetFields(cal, start, []) == start;
    assert SetFields(cal, start, [a]) == Set(cal, start, FieldOf(a.key), TrimSpace(a.val));
  }

  lemma IdHeadersSet(cal: Calendar, start: Report, r: Report)
    requires start.created == 0
    ensures var date := TrimSpace(r.date);
            SetFields(cal, start, IdHeaders(r)) ==
              start.(messageId := IdBack(r.messageId), date := date,
                     created := if cal.date(date).Some? then cal.date(date).value else 0)
  {
    assert FieldOf("Message-ID") == IsId && FieldOf("Date") == IsDate by {
      KeysNameFields();
    }
    TrimmedIsFixed("<" + r.messageId + ">");
    TwoSet(cal, start, IdHeaders(r)[0], IdHeaders(r)[1]);
  }

  lemma NameHeadersSet(cal: Calendar, start: Report, r: Report)
    ensures SetFields(cal, start, NameHeaders(r)) ==
              start.(sender := TrimSpace(r.sender), subject := TrimSpace(r.subject))
  {
    assert FieldOf("From") == IsFrom && FieldOf("Subject") == IsSubject by {
      KeysNameFields();
    }
    TwoSet(cal, start, NameHeaders(r)[0], NameHeaders(r)[1]);
  }

  lemma ToSet(cal: Calendar, start: Report, hs: seq<Header>, to: string)
    requires SetFields(cal, start, hs).to == ""
    ensures SetFields(cal, start, hs + If(to != "", "To", to)) == SetFields(cal, start, hs).(to := TrimSpace(to))
  {
    assert FieldOf("To") == IsTo by {
      KeysNameFields();
    }
    TrimmedIsFixed("");
    Extend(cal, start, hs, to != "", "To", to, SetFields(cal, start, hs).(to := TrimSpace(to)));
  }

  lemma TagsSet(cal: Calendar, start: Report, hs: seq<Header>, tags: seq<string>)
    requires SetFields(cal, start, hs).tags == []
    ensures SetFields(cal, start, hs + If(tags != [], "Tags", Join(tags, ","))) == SetFields(cal, start, hs).(tags := ListBack(tags))
  {
    assert FieldOf("Tags") == IsTags by {
      KeysNameFields();
    }
    Extend(cal, start, hs, tags != [], "Tags", Join(tags, ","), SetFields(cal, start, hs).(tags := ListBack(tags)));
  }

  lemma TaskRefSet(cal: Calendar, start: Report, hs: seq<Header>, taskRef: string)
    requires SetFields(cal, start, hs).taskRef == ""
    ensures SetFields(cal, start, hs + If(taskRef != "", "Task-Ref", taskRef)) ==
              SetFields(cal, start, hs).(taskRef := TrimSpace(taskRef))
  {
    assert FieldOf("Task-Ref") == IsTaskRef by {
      KeysNameFields();
    }
    TrimmedIsFixed("");
    Extend(cal, start, hs, taskRef != "", "Task-Ref", taskRef, SetFields(cal, start, hs).(taskRef := TrimSpace(taskRef)));
  }

  lemma MoreHeadersSet(cal: Calendar, start: Report, r: Report)
    requires start.to == start.taskRef == "" && start.tags == []
    ensures SetFields(cal, start, MoreHeaders(r)) ==
              start.(to := TrimSpace(r.to), tags := ListBack(r.tags), taskRef := TrimSpace(r.taskRef))
  {
    var to := If(r.to != "", "To", r.to);
    ToSet(cal, start, [], r.to);
    assert [] + to == to;
    TagsSet(cal, start, to, r.tags);
    TaskRefSet(cal, start, to + If(r.tags != [], "Tags", Join(r.tags, ",")), r.taskRef);
  }

  lemma LastHeadersSet(cal: Calendar, start: Report, r: Report)
    requires start.attachments == []
    ensures SetFields(cal, start, LastHeaders(r)) ==
              start.(attachments := ListBack(r.attachments),
                     created := if EpochOf(cal, TrimSpace(r.date)).Some? then EpochOf(cal, TrimSpace(r.date)).value else start.created)
  {
    KeysNameFields();
    var joined := Join(r.attachments, ",");
    var h1, r1 := If(r.attachments != [], "Attachments", joined), start.(attachments := ListBack(r.attachments));
    Extend(cal, start, [], r.attachments != [], "Attachments", joined, r1);
    assert [] + h1 == h1;
    Extend(cal, start, h1, true, "Created", r.date, Set(cal, r1, IsCreated, TrimSpace(r.date)));
    assert If(true, "Created", r.date) == [Header("Created", r.date)];
  }

  lemma HeadersSet(cal: Calendar, r: Report, body: string)
    ensures SetFields(cal, Blank(body), Headers(r)) ==
              Report(IdBack(r.messageId), TrimSpace(r.date), TrimSpace(r.sender), TrimSpace(r.subject), TrimSpace(r.to),
                     ListBack(r.tags), TrimSpace(r.taskRef), ListBack(r.attachments), body, CreatedBack(cal, r.date))
  {
    IdHeadersSet(cal, Blank(body), r);
    NameHeadersSet(cal, SetFields(cal, Blank(body), IdHeaders(r)), r);
    SetFieldsAppend(cal, Blank(body), IdHeaders(r), NameHeaders(r));
    var r1 := SetFields(cal, Blank(body), FirstHeaders(r));
    MoreHeadersSet(cal, r1, r);
    SetFieldsAppend(cal, Blank(body), FirstHeaders(r), MoreHeaders(r));
    LastHeadersSet(cal, SetFields(cal, r1, MoreHeaders(r)), r);
    SetFieldsAppend(cal, Blank(body), FirstHeaders(r) + MoreHeaders(r), LastHeaders(r));
  }

  lemma {:induction false} JoinedIsOneLine(parts: seq<string>)
    requires OneLineEach(parts)
    ensures '\n' !in Join(parts, ",")
  {
    if |parts| > 1 {
      JoinedIsOneLine(parts[1..]);
    }
  }

  lemma FirstKeysAreGood()
    ensures GoodKey("Message-ID") && GoodKey("Date") && GoodKey("From") && GoodKey("Subject")
  {
  }

  lemma MoreKeysAreGood()
    ensures GoodKey("To") && GoodKey("Tags") && GoodKey("Task-Ref")
  {
  }

  lemma LastKeysAreGood()
    ensures GoodKey("Attachments") && GoodKey("Created")
  {
  }

  lemma GoodConcat(a: seq<Header>, present: bool, key: string, val: string)
    requires AllGood(a) && (present ==> GoodKey(key) && '\n' !in val)
    ensures AllGood(a + If(present, key, val))
  {
  }

  lemma AllGoodConcat(a: seq<Header>, b: seq<Header>)
    requires AllGood(a) && AllGood(b)
    ensures AllGood(a + b)
  {
  }

  lemma HeadersAreGood(r: Report)
    requires OneLine(r)
    ensures AllGood(Headers(r))
  {
    FirstHeadersAreGood(r);
    JoinedIsOneLine(r.tags);
    JoinedIsOneLine(r.attachments);
    var tags, files := Join(r.tags, ","), Join(r.attachments, ",");
    assert AllGood(MoreHeaders(r)) && AllGood(LastHeaders(r)) by {
      MoreKeysAreGood();
      LastKeysAreGood();
      GoodConcat([], r.to != "", "To", r.to);
      GoodConcat(If(r.to != "", "To", r.to), r.tags != [], "Tags", tags);
      GoodConcat(If(r.to != "", "To", r.to) + If(r.tags != [], "Tags", tags), r.taskRef != "", "Task-Ref", r.taskRef);
      GoodConcat(If(r.attachments != [], "Attachments", files), true, "Created", r.date);
    }
    AllGoodConcat(FirstHeaders(r), MoreHeaders(r));
    AllGoodConcat(FirstHeaders(r) + MoreHeaders(r), LastHeaders(r));
  }

  lemma FirstHeadersAreGood(r: Report)
    requires OneLine(r)
    ensures AllGood(FirstHeaders(r))
  {
    FirstKeysAreGood();
    assert GoodHeader(FirstHeaders(r)[0]) && GoodHeader(FirstHeaders(r)[1]);
    assert GoodHeader(FirstHeaders(r)[2]) && GoodHeader(FirstHeaders(r)[3]);
  }

  /** Reading back what was written, for every report whose header fields are single lines. */
  lemma ParseOfRender(cal: Calendar, r: Report, filename: string)
    requires OneLine(r)
    ensures Parse(cal, Render(r), filename) ==
              Finish(cal, Report(IdBack(r.messageId), TrimSpace(r.date), TrimSpace(r.sender), TrimSpace(r.subject), TrimSpace(r.to),
                                 ListBack(r.tags), TrimSpace(r.taskRef), ListBack(r.attachments),
                                 TrimRightChar(r.body, '\n'), CreatedBack(cal, r.date)), filename)
  {
    HeadersAreGood(r);
    ParseOfHeaders(cal, Headers(r), r.body, filename);
    HeadersSet(cal, r, TrimRightChar(r.body, '\n'));
  }

  // ---------- exactly when everything comes back ----------

  /** A list written between commas. */
  predicate ListSurvives(parts: seq<string>) {
    var joined := Join(parts, ",");
    || parts == []
    || (joined != "" && TrimSpace(joined) == joined && forall i :: 0 <= i < |parts| ==> ',' !in parts[i])
  }

  lemma ListSurvivesIff(parts: seq<string>)
    ensures ListBack(parts) == parts <==> ListSurvives(parts)
  {
    if parts != [] {
      var joined := Join(parts, ",");
      if ListBack(parts) == parts {
        var v := TrimSpace(joined);
        SplitPartsFree(v, ',');
        JoinSplit(v, ',');
      }
      if ListSurvives(parts) {
        SplitJoin(parts, ',');
      }
    }
  }

  /** An id: no bracket at either end, or nothing but brackets and the name of the file. */
  predicate IdSurvives(id: string, filename: string) {
    if forall i :: 0 <= i < |id| ==> Bracket(id[i]) then id == filename
    else !Bracket(id[0]) && !Bracket(id[|id| - 1])
  }

  lemma IdSurvivesIff(id: string, filename: string)
    ensures (if IdBack(id) == "" then filename else IdBack(id)) == id <==> IdSurvives(id, filename)
  {
    var s := "<" + id + ">";
    assert s[1..] == id + ">";
    assert TrimBrackets(s) == TrimBrackets(id + ">");
    TrimLastBracket(id);
  }

  lemma {:induction false} TrimLastBracket(id: string)
    ensures TrimBrackets(id + ">") == TrimBrackets(id)
    decreases |id|
  {
    var s := id + ">";
    if id == "" {
      assert s[1..] == "";
    } else if Bracket(id[0]) {
      assert s[1..] == id[1..] + ">";
      TrimLastBracket(id[1..]);
    } else {
      assert s[..|s| - 1] == id;
    }
  }

  /** The time: a date that reads as the time of creation, which is not the epoch itself. */
  predicate TimeSurvives(cal: Calendar, date: string, created: int) {
    var t := CreatedBack(cal, date);
    if t != 0 then TrimSpace(date) == date && created == t
    else date == cal.print_(cal.now) && created == cal.now
  }

  /** Every field comes back exactly when each of them survives on its own. The body may hold
      blank lines and lines that look like headers; it only loses newlines at its end. */
  lemma RoundTripIff(cal: Calendar, r: Report, filename: string)
    requires OneLine(r)
    ensures Parse(cal, Render(r), filename) == r <==>
              && IdSurvives(r.messageId, filename) && TimeSurvives(cal, r.date, r.created)
              && TrimSpace(r.sender) == r.sender && TrimSpace(r.subject) == r.subject
              && TrimSpace(r.to) == r.to && TrimSpace(r.taskRef) == r.taskRef
              && ListSurvives(r.tags) && ListSurvives(r.attachments)
              && (r.body == "" || r.body[|r.body| - 1] != '\n')
  {
    ParseOfRender(cal, r, filename);
    IdSurvivesIff(r.messageId, filename);
    ListSurvivesIff(r.tags);
    ListSurvivesIff(r.attachments);
  }

  /** Whatever the report, the body is lost only in trailing newlines. */
  lemma BodyComesBack(cal: Calendar, r: Report, filename: string)
    requires OneLine(r)
    ensures Parse(cal, Render(r), filename).body == TrimRightChar(r.body, '\n')
  {
    ParseOfRender(cal, r, filename);
  }

  // ---------- what any file is read as ----------

  /** The value of the last of these lines whose key, before its first colon and in any case, is this one;
      nothing if there is none. Of lists, only a value that is not empty counts. */
  function LastValue(lines: seq<string>, key: string, filled: bool): string
    decreases |lines|
  {
    if lines == [] then ""
    else
      var n := |lines| - 1;
      var i := IndexOf(lines[n], ':');
      if i.Some? && ToLower(TrimSpace(lines[n][..i.value])) == key && (filled ==> TrimSpace(lines[n][i.value + 1..]) != "") then
        TrimSpace(lines[n][i.value + 1..])
      else LastValue(lines[..n], key, filled)
  }

  /** The last time that could be read from a date or from what is given as created, 0 if there is none. */
  function LastTime(cal: Calendar, lines: seq<string>): int
    decreases |lines|
  {
    if lines == [] then 0
    else
      var n := |lines| - 1;
      match IndexOf(lines[n], ':')
      case None => LastTime(cal, lines[..n])
      case Some(i) =>
        var key, val := ToLower(TrimSpace(lines[n][..i])), TrimSpace(lines[n][i + 1..]);
        if (key == KeyOf(IsDate) || (key == KeyOf(IsCreated) && val != "")) && cal.date(val).Some? then cal.date(val).value
        else if key == KeyOf(IsCreated) && val != "" && cal.epoch(val).Some? then cal.epoch(val).value
        else LastTime(cal, lines[..n])
  }

  function ListOf(val: string): seq<string> {
    if val == "" then [] else Split(val, ',')
  }

  /** Everything a report takes from its header lines. */
  ghost predicate ReadFrom(cal: Calendar, r: Report, lines: seq<string>) {
    && r.messageId == TrimBrackets(LastValue(lines, KeyOf(IsId), false))
    && r.date == LastValue(lines, KeyOf(IsDate), false) && r.sender == LastValue(lines, KeyOf(IsFrom), false)
    && r.subject == LastValue(lines, KeyOf(IsSubject), false) && r.to == LastValue(lines, KeyOf(IsTo), false)
    && r.taskRef == LastValue(lines, KeyOf(IsTaskRef), false)
    && r.tags == ListOf(LastValue(lines, KeyOf(IsTags), true)) && r.attachments == ListOf(LastValue(lines, KeyOf(IsAttachments), true))
    && r.created == LastTime(cal, lines)
  }

  /** One line more changes the value of its own key alone. */
  lemma LastOneMore(lines: seq<string>, key: string, filled: bool)
    requires lines != []
    ensures var n := |lines| - 1;
            LastValue(lines, key, filled) ==
              match ParseHeader(lines[n])
              case None => LastValue(lines[..n], key, filled)
              case Some(kv) => if ToLower(kv.0) == key && (filled ==> kv.1 != "") then kv.1 else LastValue(lines[..n], key, filled)
  {
  }

  lemma TimeOneMore(cal: Calendar, lines: seq<string>)
    requires lines != []
    ensures var n := |lines| - 1;
            LastTime(cal, lines) ==
              match ParseHeader(lines[n])
              case None => LastTime(cal, lines[..n])
              case Some(kv) =>
                if FieldOf(kv.0) == IsDate && cal.date(kv.1).Some? then cal.date(kv.1).value
                else if FieldOf(kv.0) == IsCreated && EpochOf(cal, kv.1).Some? then EpochOf(cal, kv.1).value
                else LastTime(cal, lines[..n])
  {
    if ParseHeader(lines[|lines| - 1]).Some? {
      var key := ParseHeader(lines[|lines| - 1]).value.0;
      FieldIff(key, IsDate);
      FieldIff(key, IsCreated);
    }
  }

  lemma {:induction false} LinesAreRead(cal: Calendar, body: string, lines: seq<string>)
    ensures ReadFrom(cal, ParseLines(cal, Blank(body), lines), lines)
    decreases |lines|
  {
    if lines != [] {
      LinesAreRead(cal, body, lines[..|lines| - 1]);
      LineIsRead(cal, ParseLines(cal, Blank(body), lines[..|lines| - 1]), lines);
    } else {
      assert TrimBrackets("") == "";
    }
  }

  /** The key of a field, in lower case. */
  function KeyOf(f: Field): string {
    match f
    case IsId => "message-id"
    case IsDate => "date"
    case IsFrom => "from"
    case IsSubject => "subject"
    case IsTo => "to"
    case IsTags => "tags"
    case IsTaskRef => "task-ref"
    case IsAttachments => "attachments"
    case IsCreated => "created"
    case IsNone => ""
  }

  lemma FieldIff(key: string, f: Field)
    requires f != IsNone
    ensures FieldOf(key) == f <==> ToLower(key) == KeyOf(f)
  {
  }

  /** One more line: the field it names has its value, a list only if that is not empty. */
  lemma LastOf(lines: seq<string>, f: Field, filled: bool)
    requires lines != [] && f != IsNone
    ensures var n := |lines| - 1;
            LastValue(lines, KeyOf(f), filled) ==
              match ParseHeader(lines[n])
              case None => LastValue(lines[..n], KeyOf(f), filled)
              case Some(kv) => if FieldOf(kv.0) == f && (filled ==> kv.1 != "") then kv.1 else LastValue(lines[..n], KeyOf(f), filled)
  {
    LastOneMore(lines, KeyOf(f), filled);
    if ParseHeader(lines[|lines| - 1]).Some? {
      FieldIff(ParseHeader(lines[|lines| - 1]).value.0, f);
    }
  }

  lemma LineIsRead(cal: Calendar, r: Report, lines: seq<string>)
    requires lines != [] && ReadFrom(cal, r, lines[..|lines| - 1])
    ensures ReadFrom(cal, ParseLine(cal, r, lines[|lines| - 1]), lines)
  {
    LastOf(lines, IsId, false);
    LastOf(lines, IsDate, false);
    LastOf(lines, IsFrom, false);
    LastOf(lines, IsSubject, false);
    LastOf(lines, IsTo, false);
    LastOf(lines, IsTaskRef, false);
    LastOf(lines, IsTags, true);
    LastOf(lines, IsAttachments, true);
    TimeIsRead(cal, r, lines);
  }

  lemma TimeIsRead(cal: Calendar, r: Report, lines: seq<string>)
    requires lines != [] && r.created == LastTime(cal, lines[..|lines| - 1])
    ensures ParseLine(cal, r, lines[|lines| - 1]).created == LastTime(cal, lines)
  {
    TimeOneMore(cal, lines);
    match ParseHeader(lines[|lines| - 1])
    case None =>
    case Some(kv) => TimeIsSet(cal, r, FieldOf(kv.0), kv.1);
  }

  lemma TimeIsSet(cal: Calendar, r: Report, f: Field, val: string)
    ensures Set(cal, r, f, val).created ==
              if f == IsDate && cal.date(val).Some? then cal.date(val).value
              else if f == IsCreated && EpochOf(cal, val).Some? then EpochOf(cal, val).value
              else r.created
  {
  }

  /** What any text is read as: every field has the last value given for it above the first blank line; a
      report without an id gets the file's name and one without a time the present. */
  lemma ReadIs(cal: Calendar, s: string, filename: string)
    ensures var lines := Split(s, '\n');
            var r, head := Parse(cal, s, filename), if BlankLine(lines).Some? then lines[..BlankLine(lines).value] else lines;
            var id, time := TrimBrackets(LastValue(head, KeyOf(IsId), false)), LastTime(cal, head);
            && r.messageId == (if id == "" then filename else id)
            && r.sender == LastValue(head, KeyOf(IsFrom), false) && r.subject == LastValue(head, KeyOf(IsSubject), false)
            && r.to == LastValue(head, KeyOf(IsTo), false) && r.taskRef == LastValue(head, KeyOf(IsTaskRef), false)
            && r.tags == ListOf(LastValue(head, KeyOf(IsTags), true)) && r.attachments == ListOf(LastValue(head, KeyOf(IsAttachments), true))
            && r.created == (if time == 0 then cal.now else time)
            && r.date == (if time == 0 then cal.print_(cal.now) else LastValue(head, KeyOf(IsDate), false))
  {
    var (headers, rest) := Parts(Split(s, '\n'));
    LinesAreRead(cal, TrimRightChar(Join(rest, "\n"), '\n'), headers);
  }

  ghost predicate OnlyBrackets(s: string, from: nat, upTo: nat) {
    forall i :: from <= i < upTo && i < |s| ==> s[i] == '<' || s[i] == '>'
  }

  /** Brackets are taken off both ends and nowhere else. */
  lemma {:induction false} BracketsAreOff(s: string) returns (a: nat, b: nat)
    ensures a <= b <= |s| && TrimBrackets(s) == s[a..b]
    ensures OnlyBrackets(s, 0, a) && OnlyBrackets(s, b, |s|)
    ensures a < b ==> s[a] != '<' && s[a] != '>' && s[b - 1] != '<' && s[b - 1] != '>'
    decreases |s|
  {
    a, b := 0, |s|;
    if s != "" && Bracket(s[0]) {
      var c, d := BracketsAreOff(s[1..]);
      a, b := c + 1, d + 1;
      FirstOff(s, c, d);
    } else if s != "" && Bracket(s[|s| - 1]) {
      a, b := BracketsAreOff(s[..|s| - 1]);
      LastOff(s, b);
    }
  }

  lemma FirstOff(s: string, c: nat, d: nat)
    requires s != "" && Bracket(s[0]) && c <= d <= |s| - 1 && OnlyBrackets(s[1..], 0, c) && OnlyBrackets(s[1..], d, |s| - 1)
    ensures s[1..][c..d] == s[c + 1..d + 1] && OnlyBrackets(s, 0, c + 1) && OnlyBrackets(s, d + 1, |s|)
  {
    assert forall i :: 0 < i < |s| ==> s[i] == s[1..][i - 1];
  }

  lemma LastOff(s: string, b: nat)
    requires s != "" && Bracket(s[|s| - 1]) && b <= |s| - 1 && OnlyBrackets(s[..|s| - 1], b, |s| - 1)
    ensures OnlyBrackets(s, b, |s|)
  {
    assert forall i :: 0 <= i < |s| - 1 ==> s[i] == s[..|s| - 1][i];
  }
}
