/** The SSE relay (internal/modelproxy/proxy.go, pipeSSE). The upstream is a sequence of
    scanned lines and keepalive ticks in the order the select loop receives them. */
module Sse {
  import opened Text

  datatype Usage = Usage(prompt: int, completion: int)

  datatype Item = Line(text: string, at: int) | Tick(at: int)

  /** The text tests and the usage decoder, taken as given. */
  datatype Texts = Texts(retryable: string -> bool, fault: string -> bool, usage: string -> Option<Usage>)

  /** What one call is told: the retry permissions, the hold timeout (ms) and the text tests. */
  datatype Params = Params(canRetry: bool, faultRetryOK: bool, holdTimeout: int, texts: Texts)

  /** One write to the client. */
  datatype Write =
    | Relayed(line: string)                       // the line and a newline
    | RelayedError(line: string)                  // an upstream error event, with its blank line
    | ErrorEvent(message: string, code: string)   // the proxy's own error event
    | DoneEvent                                   // data: [DONE]
    | Keepalive                                   // : keepalive

  datatype Hold = NoHold | Holding(payload: string, start: int)

  datatype Relay = Relay(done: bool, err: bool, content: bool, usage: Option<Usage>, hold: Hold, out: seq<Write>)

  datatype Result = Result(usage: Option<Usage>, failed: bool, retryEarly: bool, out: seq<Write>)

  const DATA := "data:"
  const DONE := "[DONE]"
  const ERROR_KEY := "\"error\""
  const CHOICES_KEY := "\"choices\""
  const INTERRUPTED := ErrorEvent("model-proxy: upstream stream interrupted before [DONE]", "stream_interrupted")
  const MILLISECOND: int := 1_000_000

  /** The payload of a data line. */
  function Payload(line: string): Option<string> {
    var t := TrimSpace(line);
    if HasPrefix(t, DATA) then Some(TrimSpace(TrimPrefix(t, DATA))) else None
  }

  predicate IsDone(line: string) {
    Payload(line) == Some(DONE)
  }

  predicate IsError(line: string) {
    var p := Payload(line);
    p.Some? && p.value != DONE && HasPrefix(p.value, "{") && Contains(p.value, ERROR_KEY)
  }

  predicate IsChunk(line: string) {
    var p := Payload(line);
    p.Some? && p.value != DONE && HasPrefix(p.value, "{") && !Contains(p.value, ERROR_KEY)
  }

  predicate IsContent(line: string) {
    IsChunk(line) && Contains(Payload(line).value, CHOICES_KEY)
  }

  /** A data line has "data:" in front, blanks apart, and a payload behind it. */
  lemma PayloadIff(line: string, p: string)
    ensures Payload(line) == Some(p) <==> exists rest :: TrimSpace(line) == "data:" + rest && p == TrimSpace(rest)
  {
    var t := TrimSpace(line);
    if HasPrefix(t, DATA) {
      assert t == "data:" + t[5..];
    }
    forall rest | t == "data:" + rest ensures HasPrefix(t, DATA) && t[5..] == rest {
      assert ("data:" + rest)[..5] == "data:";
    }
  }

  /** What a payload says: the end of the stream, an error, or a chunk, with content or without. */
  lemma KindIs(line: string, p: string)
    requires Payload(line) == Some(p)
    ensures var brace, error := p != "" && p[0] == '{', exists a, b :: p == a + "\"error\"" + b;
            && (IsDone(line) <==> p == "[DONE]")
            && (IsError(line) <==> brace && error)
            && (IsChunk(line) <==> brace && !error)
            && (IsContent(line) <==> brace && !error && exists a, b :: p == a + "\"choices\"" + b)
  {
    ContainsIff(p, "\"error\"");
    ContainsIff(p, "\"choices\"");
    assert p != "" ==> p[..1] == [p[0]];
  }

  lemma ContainsIff(s: string, sub: string)
    ensures Contains(s, sub) <==> exists a, b :: s == a + sub + b
  {
    if Contains(s, sub) {
      var i :| 0 <= i <= |s| && HasPrefix(s[i..], sub);
      assert s == s[..i] + sub + s[i..][|sub|..];
    }
    forall a, b | s == a + sub + b ensures Contains(s, sub) {
      assert s[|a|..] == sub + b;
      assert HasPrefix(s[|a|..], sub);
    }
  }

  /** The usage block a line carries, if it is a chunk with one. */
  function UsageOf(line: string, t: Texts): Option<Usage> {
    if IsChunk(line) then t.usage(Payload(line).value) else None
  }

  predicate Retryable(line: string, p: Params) {
    IsError(line) && p.texts.retryable(Payload(line).value)
  }

  predicate Fault(line: string, p: Params) {
    IsError(line) && p.texts.fault(Payload(line).value)
  }

  /** An error that may abort the attempt for a retry. */
  predicate Aborts(line: string, p: Params) {
    (Retryable(line, p) || Fault(line, p)) && (p.canRetry || (Fault(line, p) && p.faultRetryOK))
  }

  datatype State = Running(s: Relay) | Stopped(r: Result)

  function HoldExpired(h: Hold, p: Params, at: int): bool
    requires h.Holding?
  {
    at - h.start >= p.holdTimeout * MILLISECOND
  }

  function OnLine(p: Params, s: Relay, line: string, at: int): State {
    if IsDone(line) then
      Running(s.(done := true, hold := NoHold, out := s.out + [Relayed(line)]))
    else if IsError(line) then
      if !s.content && Aborts(line, p) then Stopped(Result(None, true, true, s.out))
      else if !s.content && !p.canRetry && Retryable(line, p) then
        Running(s.(hold := Holding(Payload(line).value, at)))
      else Running(s.(err := true, out := s.out + [RelayedError(line)]))
    else
      var u := UsageOf(line, p.texts);
      Running(s.(content := s.content || IsContent(line), usage := if u.Some? then u else s.usage, out := s.out + [Relayed(line)]))
  }

  function OnTick(p: Params, s: Relay, at: int): State {
    if s.hold.NoHold? then Running(s)
    else if HoldExpired(s.hold, p, at) then
      Stopped(Result(s.usage, true, false, s.out + [ErrorEvent(s.hold.payload, "rate_limit_exceeded"), DoneEvent]))
    else Running(s.(out := s.out + [Keepalive]))
  }

  function OnItem(p: Params, s: Relay, item: Item): State {
    match item
    case Line(text, at) => OnLine(p, s, text, at)
    case Tick(at) => OnTick(p, s, at)
  }

  function AtEnd(s: Relay): Result {
    if s.hold.Holding? then
      Result(s.usage, true, false, s.out + [ErrorEvent(s.hold.payload, "rate_limit_exceeded"), DoneEvent])
    else if !s.done && !s.err then
      Result(s.usage, true, false, s.out + [INTERRUPTED, DoneEvent])
    else Result(s.usage, false, false, s.out)
  }

  const START := Relay(false, false, false, None, NoHold, [])

  function Fold(p: Params, feed: seq<Item>): State
    decreases |feed|
  {
    if feed == [] then Running(START)
    else
      match Fold(p, feed[..|feed| - 1])
      case Stopped(r) => Stopped(r)
      case Running(s) => OnItem(p, s, feed[|feed| - 1])
  }

  function Pipe(p: Params, feed: seq<Item>): Result {
    match Fold(p, feed)
    case Stopped(r) => r
    case Running(s) => AtEnd(s)
  }

  /** What the scanner goroutine delivers: the lines, then one empty line, and then only ticks
      until the channel is closed. */
  function Feed(scanned: seq<Item>, eofAt: int, ticks: seq<int>): seq<Item> {
    scanned + [Line("", eofAt)] + seq(|ticks|, i requires 0 <= i < |ticks| => Tick(ticks[i]))
  }

  lemma {:induction false} StoppedStays(p: Params, feed: seq<Item>, n: nat)
    requires n <= |feed| && Fold(p, feed[..n]).Stopped?
    ensures Fold(p, feed) == Fold(p, feed[..n])
    decreases |feed|
  {
    if n < |feed| {
      assert feed[..|feed| - 1][..n] == feed[..n];
      StoppedStays(p, feed[..|feed| - 1], n);
    } else {
      assert feed[..n] == feed;
    }
  }

  lemma FoldStep(p: Params, feed: seq<Item>, n: nat)
    requires 0 < n <= |feed| && Fold(p, feed[..n - 1]).Running?
    ensures Fold(p, feed[..n]) == OnItem(p, Fold(p, feed[..n - 1]).s, feed[n - 1])
  {
    assert feed[..n][..n - 1] == feed[..n - 1];
  }

  /** pipeSSE: the select loop over the scan channel and the keepalive ticker. */
  method PipeSSE(scanned: seq<Item>, eofAt: int, ticks: seq<int>, canRetry: bool, faultRetryOK: bool, holdTimeout: int, texts: Texts)
    returns (usage: Option<Usage>, failed: bool, retryEarly: bool, out: seq<Write>)
    ensures Result(usage, failed, retryEarly, out) ==
              Pipe(Params(canRetry, faultRetryOK, holdTimeout, texts), Feed(scanned, eofAt, ticks))
  {
    ghost var p := Params(canRetry, faultRetryOK, holdTimeout, texts);
    var feed := Feed(scanned, eofAt, ticks);
    var sawDone, sawError, sawContent := false, false, false;
    var inKeepalive, keepaliveStart, saturationErrorPayload := false, 0, "";
    usage, out := None, [];
    var i := 0;
    while i < |feed|
      invariant 0 <= i <= |feed|
      invariant Fold(p, feed[..i]) == Running(Relay(sawDone, sawError, sawContent, usage,
                  if inKeepalive then Holding(saturationErrorPayload, keepaliveStart) else NoHold, out))
    {
      var item := feed[i];
      ghost var s := Fold(p, feed[..i]).s;
      i := i + 1;
      FoldStep(p, feed, i);
      match item
      case Line(line, at) =>
        var trimmed := TrimSpace(line);
        if HasPrefix(trimmed, DATA) {
          var payload := TrimSpace(TrimPrefix(trimmed, DATA));
          if payload == DONE {
            sawDone := true;
            inKeepalive := false;
          } else if HasPrefix(payload, "{") && Contains(payload, ERROR_KEY) {
            var retryable := texts.retryable(payload);
            var fault := texts.fault(payload);
            if !sawContent && (retryable || fault) && (canRetry || (fault && faultRetryOK)) {
              StoppedStays(p, feed, i);
              return None, true, true, out;
            }
            if !sawContent && !canRetry && retryable {
              saturationErrorPayload := payload;
              inKeepalive := true;
              keepaliveStart := at;
              continue;
            }
            sawError := true;
            out := out + [RelayedError(line)];
            continue;
          } else if HasPrefix(payload, "{") {
            if Contains(payload, CHOICES_KEY) {
              sawContent := true;
            }
            var u := texts.usage(payload);
            if u.Some? {
              usage := u;
            }
          }
        }
        out := out + [Relayed(line)];
      case Tick(at) =>
        if !inKeepalive {
          continue;
        }
        if at - keepaliveStart >= holdTimeout * MILLISECOND {
          out := out + [ErrorEvent(saturationErrorPayload, "rate_limit_exceeded"), DoneEvent];
          StoppedStays(p, feed, i);
          return usage, true, false, out;
        }
        out := out + [Keepalive];
    }
    assert feed[..i] == feed;
    failed, out := CloseStream(sawDone, sawError, inKeepalive, saturationErrorPayload, out, Fold(p, feed).s);
    retryEarly := false;
  }

  /** The scanner has finished. */
  method CloseStream(sawDone: bool, sawError: bool, inKeepalive: bool, saturationErrorPayload: string, out: seq<Write>, ghost s: Relay)
    returns (failed: bool, out': seq<Write>)
    requires s.done == sawDone && s.err == sawError && s.out == out
    requires s.hold.Holding? == inKeepalive && (inKeepalive ==> s.hold.payload == saturationErrorPayload)
    ensures Result(s.usage, failed, false, out') == AtEnd(s)
  {
    if inKeepalive {
      return true, out + [ErrorEvent(saturationErrorPayload, "rate_limit_exceeded"), DoneEvent];
    }
    if !sawDone && !sawError {
      return true, out + [INTERRUPTED, DoneEvent];
    }
    return false, out;
  }

  // ---------- what the flags mean ----------

  ghost predicate SawDone(feed: seq<Item>) {
    exists i :: 0 <= i < |feed| && feed[i].Line? && IsDone(feed[i].text)
  }

  ghost predicate SawError(feed: seq<Item>) {
    exists i :: 0 <= i < |feed| && feed[i].Line? && IsError(feed[i].text)
  }

  ghost predicate SawContent(feed: seq<Item>) {
    exists i :: 0 <= i < |feed| && feed[i].Line? && IsContent(feed[i].text)
  }

  /** The usage of the last usage-bearing chunk. */
  function LastUsage(feed: seq<Item>, t: Texts): Option<Usage>
    decreases |feed|
  {
    if feed == [] then None
    else
      var last := feed[|feed| - 1];
      if last.Line? && IsChunk(last.text) && t.usage(Payload(last.text).value).Some? then t.usage(Payload(last.text).value)
      else LastUsage(feed[..|feed| - 1], t)
  }

  ghost predicate RelayedContent(out: seq<Write>) {
    exists i :: 0 <= i < |out| && out[i].Relayed? && IsContent(out[i].line)
  }

  /** Upstream saturation text only ever passes through once content has been relayed. */
  ghost predicate SaturationAfterContent(out: seq<Write>, p: Params) {
    forall i :: 0 <= i < |out| && out[i].RelayedError? && Retryable(out[i].line, p) ==> RelayedContent(out[..i])
  }

  ghost predicate RelayedAnError(out: seq<Write>) {
    exists i :: 0 <= i < |out| && out[i].RelayedError?
  }

  /** While the relay runs, its flags describe exactly the items consumed so far. */
  ghost predicate Describes(p: Params, s: Relay, feed: seq<Item>) {
    && (s.done <==> SawDone(feed))
    && (s.content <==> SawContent(feed))
    && (s.content <==> RelayedContent(s.out))
    && (s.err <==> RelayedAnError(s.out))
    && s.usage == LastUsage(feed, p.texts)
    && (s.hold.Holding? ==> !p.canRetry && p.texts.retryable(s.hold.payload))
  }

  lemma {:induction false} FlagsDescribeFeed(p: Params, feed: seq<Item>)
    requires Fold(p, feed).Running?
    ensures Describes(p, Fold(p, feed).s, feed)
    decreases |feed|
  {
    if feed != [] {
      var n := |feed| - 1;
      FlagsDescribeFeed(p, feed[..n]);
      ItemIsDescribed(p, Fold(p, feed[..n]).s, feed[..n], feed[n]);
      assert feed == feed[..n] + [feed[n]];
    }
  }

  lemma ItemIsDescribed(p: Params, s: Relay, feed: seq<Item>, item: Item)
    requires Describes(p, s, feed) && OnItem(p, s, item).Running?
    ensures Describes(p, OnItem(p, s, item).s, feed + [item])
  {
    SawOneMore(feed, item);
    UsageOneMore(feed, item, p.texts);
    match item
    case Tick(at) =>
      AppendedWrite(s.out, Keepalive);
    case Line(text, at) =>
      KindsAreExclusive(text, p.texts);
      AppendedWrite(s.out, if IsError(text) then RelayedError(text) else Relayed(text));
  }

  lemma UsageOneMore(feed: seq<Item>, item: Item, t: Texts)
    ensures LastUsage(feed + [item], t) ==
              if item.Line? && UsageOf(item.text, t).Some? then UsageOf(item.text, t) else LastUsage(feed, t)
  {
    assert (feed + [item])[..|feed|] == feed;
  }

  lemma KindsAreExclusive(line: string, t: Texts)
    ensures !(IsDone(line) && IsError(line))
    ensures IsDone(line) || IsError(line) ==> !IsContent(line) && UsageOf(line, t).None?
  {
  }

  lemma SawOneMore(feed: seq<Item>, item: Item)
    ensures SawDone(feed + [item]) <==> SawDone(feed) || (item.Line? && IsDone(item.text))
    ensures SawContent(feed + [item]) <==> SawContent(feed) || (item.Line? && IsContent(item.text))
  {
    var f := feed + [item];
    assert forall i :: 0 <= i < |feed| ==> f[i] == feed[i];
    assert f[|feed|] == item;
  }

  lemma AppendedWrite(out: seq<Write>, w: Write)
    ensures RelayedContent(out + [w]) <==> RelayedContent(out) || (w.Relayed? && IsContent(w.line))
    ensures RelayedAnError(out + [w]) <==> RelayedAnError(out) || w.RelayedError?
  {
    var o := out + [w];
    assert forall i :: 0 <= i < |out| ==> o[i] == out[i];
    assert o[|out|] == w;
  }

  // ---------- results ----------

  /** The proxy's own error event, for a held error or an interrupted stream, and [DONE]. */
  ghost predicate EndsInError(out: seq<Write>) {
    && |out| >= 2 && out[|out| - 1].DoneEvent? && out[|out| - 2].ErrorEvent?
    && (out[|out| - 2].code != "rate_limit_exceeded" ==>
          out[|out| - 2] == ErrorEvent("model-proxy: upstream stream interrupted before [DONE]", "stream_interrupted"))
  }

  /** No silent truncation: the relay reports success exactly when the feed ran to its end with
      no saturation hold pending and either [DONE] or a relayed error event seen; and a failure
      that is not an early retry ends in an error event followed by [DONE]. */
  lemma NoSilentTruncation(p: Params, feed: seq<Item>)
    ensures var r := Pipe(p, feed);
            && (!r.failed ==> SawDone(feed) || RelayedAnError(r.out))
            && (r.failed && !r.retryEarly ==> EndsInError(r.out))
            && (!r.failed <==> (&& Fold(p, feed).Running? && !Fold(p, feed).s.hold.Holding?
                                && (SawDone(feed) || RelayedAnError(r.out))))
  {
    if Fold(p, feed).Running? {
      FlagsDescribeFeed(p, feed);
    } else {
      var k := StopsAt(p, feed);
    }
  }

  /** The relay gives up at the k-th item: it is the first to stop the relay, and an error before any
      content that may be retried, or a backend fault that may. */
  ghost predicate GivesUpAt(p: Params, feed: seq<Item>, k: int) {
    && 0 <= k < |feed| && Fold(p, feed[..k]).Running? && feed[k].Line? && IsError(feed[k].text) && !SawContent(feed[..k])
    && var e := Payload(feed[k].text).value;
       (p.canRetry && (p.texts.retryable(e) || p.texts.fault(e))) || (p.faultRetryOK && p.texts.fault(e))
  }

  /** Exactly then a stream is given up for an early retry. */
  lemma EarlyRetryIff(p: Params, feed: seq<Item>)
    ensures Pipe(p, feed).retryEarly <==> exists k :: GivesUpAt(p, feed, k)
  {
    if Pipe(p, feed).retryEarly {
      var k := StopsAt(p, feed);
      FlagsDescribeFeed(p, feed[..k]);
      assert GivesUpAt(p, feed, k);
    }
    forall k | GivesUpAt(p, feed, k) ensures Pipe(p, feed).retryEarly {
      FlagsDescribeFeed(p, feed[..k]);
      assert feed[..k + 1][..k] == feed[..k];
      assert Fold(p, feed[..k + 1]) == Stopped(Result(None, true, true, Fold(p, feed[..k]).s.out));
      StoppedStays(p, feed, k + 1);
    }
  }

  /** The item at which a stopped relay stopped. */
  lemma {:induction false} StopsAt(p: Params, feed: seq<Item>) returns (k: nat)
    requires Fold(p, feed).Stopped?
    ensures k < |feed| && Fold(p, feed[..k]).Running?
    ensures Fold(p, feed) == OnItem(p, Fold(p, feed[..k]).s, feed[k])
    decreases |feed|
  {
    var n := |feed| - 1;
    if Fold(p, feed[..n]).Running? {
      k := n;
    } else {
      k := StopsAt(p, feed[..n]);
      assert feed[..n][..k] == feed[..k];
    }
  }

  /** An early retry: a retryable error arrived before any content, and everything that had been
      written by then is not content. */
  lemma EarlyRetryMeansNoContent(p: Params, feed: seq<Item>) returns (k: nat)
    requires Pipe(p, feed).retryEarly
    ensures k < |feed| && feed[k].Line? && Aborts(feed[k].text, p) && !SawContent(feed[..k])
    ensures Pipe(p, feed).failed && Pipe(p, feed).usage.None?
    ensures !RelayedContent(Pipe(p, feed).out)
    ensures p.canRetry || p.faultRetryOK
    ensures Fold(p, feed[..k]).Running? && Pipe(p, feed).out == Fold(p, feed[..k]).s.out
  {
    k := StopsAt(p, feed);
    FlagsDescribeFeed(p, feed[..k]);
  }

  /** Nothing but held errors, and no tick during the hold. */
  ghost predicate Quiet(p: Params, feed: seq<Item>) {
    forall i :: 0 <= i < |feed| ==>
      match feed[i]
      case Line(text, _) => !p.canRetry && Retryable(text, p)
      case Tick(_) => forall j :: 0 <= j < i ==> feed[j].Tick?
  }

  /** The comment on pipeSSE says an early retry has written nothing. That is so exactly when
      every line before the error that caused it was an error put on hold, and the hold saw
      no tick; with a retry still in the budget, exactly when no line came before it. */
  lemma EarlyRetryWroteNothingIff(p: Params, feed: seq<Item>) returns (k: nat)
    requires Pipe(p, feed).retryEarly
    ensures k < |feed| && feed[k].Line? && Aborts(feed[k].text, p)
    ensures Pipe(p, feed).out == [] <==> Quiet(p, feed[..k])
    ensures p.canRetry ==> (Quiet(p, feed[..k]) <==> forall i :: 0 <= i < k ==> feed[i].Tick?)
  {
    k := EarlyRetryMeansNoContent(p, feed);
    QuietWritesNothing(p, feed[..k]);
    if forall i :: 0 <= i < k ==> feed[i].Tick? {
      assert forall i :: 0 <= i < k ==> feed[..k][i] == feed[i];
    }
    assert p.canRetry && Quiet(p, feed[..k]) ==> forall i :: 0 <= i < k ==> feed[..k][i].Tick?;
  }

  /** One item more: what the fold has written agrees with whether the feed is quiet. */
  ghost predicate QuietState(p: Params, s: Relay, feed: seq<Item>) {
    && (s.out == [] <==> Quiet(p, feed))
    && (Quiet(p, feed) ==> !s.content && (s.hold.NoHold? <==> forall i :: 0 <= i < |feed| ==> feed[i].Tick?))
  }

  lemma QuietItem(p: Params, s: Relay, feed: seq<Item>, item: Item)
    requires QuietState(p, s, feed) && OnItem(p, s, item).Running?
    ensures QuietState(p, OnItem(p, s, item).s, feed + [item])
  {
    var f := feed + [item];
    assert f[|feed|] == item && forall i :: 0 <= i < |feed| ==> f[i] == feed[i];
    if item.Line? {
      KindsAreExclusive(item.text, p.texts);
    }
    if Quiet(p, feed) {
      QuietOneMore(p, feed, item);
    }
  }

  lemma {:induction false} QuietWritesNothing(p: Params, feed: seq<Item>)
    requires Fold(p, feed).Running?
    ensures Fold(p, feed).s.out == [] <==> Quiet(p, feed)
    ensures Quiet(p, feed) ==> !Fold(p, feed).s.content
    ensures Quiet(p, feed) ==> (Fold(p, feed).s.hold.NoHold? <==> forall i :: 0 <= i < |feed| ==> feed[i].Tick?)
    decreases |feed|
  {
    if feed != [] {
      var n := |feed| - 1;
      var prev := feed[..n];
      QuietWritesNothing(p, prev);
      QuietItem(p, Fold(p, prev).s, prev, feed[n]);
      assert feed == prev + [feed[n]];
    }
  }

  lemma QuietOneMore(p: Params, feed: seq<Item>, item: Item)
    requires Quiet(p, feed)
    ensures Quiet(p, feed + [item]) <==>
              match item
              case Line(text, _) => !p.canRetry && Retryable(text, p)
              case Tick(_) => forall j :: 0 <= j < |feed| ==> feed[j].Tick?
  {
    var f := feed + [item];
    assert f[|feed|] == item;
    assert forall i :: 0 <= i < |feed| ==> f[i] == feed[i];
  }

  /** A feed that breaks the comment: a comment line, then a saturation error. */
  lemma EarlyRetryMayHaveWritten(texts: Texts, error: string)
    requires IsError(error) && texts.retryable(Payload(error).value)
    ensures var p := Params(true, false, 0, texts);
            var r := Pipe(p, [Line(": ping", 0), Line(error, 1)]);
            r.retryEarly && r.out == [Relayed(": ping")]
  {
    var p := Params(true, false, 0, texts);
    var feed := [Line(": ping", 0), Line(error, 1)];
    assert TrimSpace(": ping") == ": ping" by { TrimmedIsFixed(": ping"); }
    assert feed[..1] == [feed[0]] && feed[..1][..0] == [];
    assert Fold(p, []) == Running(START);
    assert Fold(p, feed[..1]) == OnItem(p, START, feed[0]);
    assert Fold(p, feed) == OnItem(p, Fold(p, feed[..1]).s, feed[1]);
  }

  /** An upstream saturation error is relayed as such only after content, whatever the retry budget. */
  lemma {:induction false} SaturationIsAbsorbed(p: Params, feed: seq<Item>)
    ensures SaturationAfterContent(Pipe(p, feed).out, p)
  {
    if Fold(p, feed).Running? {
      RunningAbsorbs(p, feed);
      EndingKeeps(p, Fold(p, feed).s.out, Pipe(p, feed).out);
    } else {
      var k := StopsAt(p, feed);
      RunningAbsorbs(p, feed[..k]);
      EndingKeeps(p, Fold(p, feed[..k]).s.out, Pipe(p, feed).out);
    }
  }

  lemma EndingKeeps(p: Params, out: seq<Write>, out': seq<Write>)
    requires SaturationAfterContent(out, p)
    requires |out| <= |out'| && out'[..|out|] == out
    requires forall i :: |out| <= i < |out'| ==> !out'[i].RelayedError? || !Retryable(out'[i].line, p) || RelayedContent(out)
    ensures SaturationAfterContent(out', p)
  {
    forall i | 0 <= i < |out'| && out'[i].RelayedError? && Retryable(out'[i].line, p)
      ensures RelayedContent(out'[..i])
    {
      if i < |out| {
        assert out[i] == out'[i];
        assert out'[..i] == out[..i];
      } else {
        assert RelayedContent(out);
        var j :| 0 <= j < |out| && out[j].Relayed? && IsContent(out[j].line);
        assert out'[..i][j] == out[j];
      }
    }
  }

  lemma {:induction false} RunningAbsorbs(p: Params, feed: seq<Item>)
    requires Fold(p, feed).Running?
    ensures SaturationAfterContent(Fold(p, feed).s.out, p)
    decreases |feed|
  {
    if feed != [] {
      var n := |feed| - 1;
      RunningAbsorbs(p, feed[..n]);
      FlagsDescribeFeed(p, feed[..n]);
      ItemAbsorbs(p, Fold(p, feed[..n]).s, feed[n]);
    }
  }

  lemma ItemAbsorbs(p: Params, s: Relay, item: Item)
    requires OnItem(p, s, item).Running? && SaturationAfterContent(s.out, p)
    requires s.content <==> RelayedContent(s.out)
    ensures SaturationAfterContent(OnItem(p, s, item).s.out, p)
  {
    var out := OnItem(p, s, item).s.out;
    if out == s.out {
    } else {
      var w := out[|s.out|];
      assert out == s.out + [w];
      assert w.RelayedError? && Retryable(w.line, p) ==> s.content;
      EndingKeeps(p, s.out, out);
    }
  }

  /** After these items the k-th is on hold: a saturation error before any content and without a retry in
      the budget, with no [DONE] and no other such error after it. */
  ghost predicate HeldFrom(p: Params, feed: seq<Item>, k: int) {
    && 0 <= k < |feed| && StartsHold(p, feed, k)
    && forall i :: k < i < |feed| ==> !StartsHold(p, feed, i) && !(feed[i].Line? && IsDone(feed[i].text))
  }

  ghost predicate StartsHold(p: Params, feed: seq<Item>, k: nat)
    requires k < |feed|
  {
    !p.canRetry && feed[k].Line? && Retryable(feed[k].text, p) && !SawContent(feed[..k])
  }

  lemma StartsBefore(p: Params, feed: seq<Item>, item: Item, i: nat)
    requires i < |feed|
    ensures (feed + [item])[i] == feed[i] && (StartsHold(p, feed + [item], i) <==> StartsHold(p, feed, i))
  {
    assert (feed + [item])[..i] == feed[..i];
  }

  /** [DONE] ends a hold, another such error takes it over, and nothing else changes it. */
  lemma HeldOneMore(p: Params, feed: seq<Item>, item: Item, k: int)
    ensures item.Line? && IsDone(item.text) ==> !HeldFrom(p, feed + [item], k)
    ensures StartsHold(p, feed + [item], |feed|) ==> (HeldFrom(p, feed + [item], k) <==> k == |feed|)
    ensures !(item.Line? && IsDone(item.text)) && !StartsHold(p, feed + [item], |feed|) ==>
              (HeldFrom(p, feed + [item], k) <==> HeldFrom(p, feed, k))
  {
    var f := feed + [item];
    assert f[|feed|] == item;
    forall i: nat | i < |feed| ensures f[i] == feed[i] && (StartsHold(p, f, i) <==> StartsHold(p, feed, i)) {
      StartsBefore(p, feed, item, i);
    }
    if item.Line? {
      KindsAreExclusive(item.text, p.texts);
    }
  }

  ghost predicate NoOwnErrors(out: seq<Write>) {
    forall i :: 0 <= i < |out| ==> !out[i].ErrorEvent?
  }

  /** While the relay runs, it holds that error since it came, and has written none of its own. */
  lemma {:induction false} RunningHolds(p: Params, feed: seq<Item>)
    requires Fold(p, feed).Running?
    ensures NoOwnErrors(Fold(p, feed).s.out)
    ensures forall k :: HeldFrom(p, feed, k) ==> Fold(p, feed).s.hold == Holding(Payload(feed[k].text).value, feed[k].at)
    ensures Fold(p, feed).s.hold.Holding? ==> exists k :: HeldFrom(p, feed, k)
    decreases |feed|
  {
    if feed != [] {
      var n := |feed| - 1;
      var before := feed[..n];
      RunningHolds(p, before);
      FlagsDescribeFeed(p, before);
      assert feed == before + [feed[n]];
      forall k
        ensures feed[n].Line? && IsDone(feed[n].text) ==> !HeldFrom(p, feed, k)
        ensures StartsHold(p, feed, n) ==> (HeldFrom(p, feed, k) <==> k == n)
        ensures !(feed[n].Line? && IsDone(feed[n].text)) && !StartsHold(p, feed, n) ==> (HeldFrom(p, feed, k) <==> HeldFrom(p, before, k))
      {
        HeldOneMore(p, before, feed[n], k);
      }
      HoldMoves(p, Fold(p, before).s, before, feed[n]);
      if StartsHold(p, feed, n) {
        assert HeldFrom(p, feed, n);
      } else if Fold(p, feed).s.hold.Holding? {
        var k :| HeldFrom(p, before, k);
        assert HeldFrom(p, feed, k);
      }
    }
  }

  lemma HoldMoves(p: Params, s: Relay, feed: seq<Item>, item: Item)
    requires OnItem(p, s, item).Running? && (s.content <==> SawContent(feed)) && NoOwnErrors(s.out)
    ensures var s' := OnItem(p, s, item).s;
            && NoOwnErrors(s'.out)
            && s'.hold ==
               if item.Line? && IsDone(item.text) then NoHold
               else if StartsHold(p, feed + [item], |feed|) then Holding(Payload(item.text).value, item.at)
               else s.hold
  {
    assert (feed + [item])[..|feed|] == feed;
  }

  /** Before content, a saturation error reaches the client in the proxy's own error event, and that
      exactly when a hold times out at a tick, or is pending when the feed ends. */
  lemma HeldErrorIsSentIff(p: Params, feed: seq<Item>, message: string) returns (k: nat)
    ensures k <= |feed| && Fold(p, feed[..k]).Running? && (k < |feed| <==> Fold(p, feed).Stopped?)
    ensures k < |feed| ==> Fold(p, feed) == OnItem(p, Fold(p, feed[..k]).s, feed[k])
    ensures ErrorEvent(message, "rate_limit_exceeded") in Pipe(p, feed).out <==>
              && (exists h :: HeldFrom(p, feed[..k], h) && Payload(feed[h].text).value == message)
              && (k == |feed| || feed[k].Tick?)
  {
    k := |feed|;
    assert feed[..|feed|] == feed;
    if Fold(p, feed).Stopped? {
      k := StopsAt(p, feed);
    }
    RunningHolds(p, feed[..k]);
  }

  /** When a hold times out: the error held since it came ends the stream at the first tick that is the
      hold timeout, in milliseconds, later; an earlier tick writes one keepalive comment, and a tick
      without a hold nothing. */
  lemma TickVerdict(p: Params, feed: seq<Item>, at: int, k: int)
    requires Fold(p, feed).Running?
    ensures HeldFrom(p, feed, k) ==>
              Fold(p, feed + [Tick(at)]) ==
              if at - feed[k].at >= p.holdTimeout * 1_000_000 then
                Stopped(Result(LastUsage(feed, p.texts), true, false,
                               Fold(p, feed).s.out + [ErrorEvent(Payload(feed[k].text).value, "rate_limit_exceeded"), DoneEvent]))
              else Running(Fold(p, feed).s.(out := Fold(p, feed).s.out + [Keepalive]))
    ensures (forall i :: !HeldFrom(p, feed, i)) ==> Fold(p, feed + [Tick(at)]) == Fold(p, feed)
  {
    assert (feed + [Tick(at)])[..|feed|] == feed;
    RunningHolds(p, feed);
    FlagsDescribeFeed(p, feed);
  }

  /** What the client gets of an item: a line as it is, unless it is an error that is put on hold. */
  ghost function Passed(p: Params, feed: seq<Item>, n: nat): seq<Write>
    requires n < |feed|
  {
    if feed[n].Tick? || StartsHold(p, feed, n) then []
    else [if IsError(feed[n].text) then RelayedError(feed[n].text) else Relayed(feed[n].text)]
  }

  ghost function PassedOn(p: Params, feed: seq<Item>): seq<Write>
    decreases |feed|
  {
    if feed == [] then [] else PassedOn(p, feed[..|feed| - 1]) + Passed(p, feed, |feed| - 1)
  }

  function NoComments(out: seq<Write>): seq<Write>
    decreases |out|
  {
    if out == [] then []
    else NoComments(out[..|out| - 1]) + if out[|out| - 1].Keepalive? then [] else [out[|out| - 1]]
  }

  lemma OneMoreWrite(out: seq<Write>, w: Write)
    ensures NoComments(out + [w]) == NoComments(out) + if w.Keepalive? then [] else [w]
  {
    assert (out + [w])[..|out|] == out;
  }

  /** While the relay runs, that and keepalive comments are all it has written: every line in order. */
  lemma {:induction false} EveryLineIsPassedOn(p: Params, feed: seq<Item>)
    requires Fold(p, feed).Running?
    ensures NoComments(Fold(p, feed).s.out) == PassedOn(p, feed)
    decreases |feed|
  {
    if feed != [] {
      var n := |feed| - 1;
      var s := Fold(p, feed[..n]).s;
      EveryLineIsPassedOn(p, feed[..n]);
      FlagsDescribeFeed(p, feed[..n]);
      ItemIsPassedOn(p, s, feed, n);
      if feed[n].Tick? {
        OneMoreWrite(s.out, Keepalive);
      } else if !StartsHold(p, feed, n) {
        OneMoreWrite(s.out, Passed(p, feed, n)[0]);
      }
    }
  }

  lemma ItemIsPassedOn(p: Params, s: Relay, feed: seq<Item>, n: nat)
    requires n == |feed| - 1 && (s.content <==> SawContent(feed[..n])) && OnItem(p, s, feed[n]).Running?
    ensures var out := OnItem(p, s, feed[n]).s.out;
            if feed[n].Tick? then out == s.out || out == s.out + [Keepalive] else out == s.out + Passed(p, feed, n)
  {
  }

  /** The lines of a feed, relayed. */
  function RelayedLines(feed: seq<Item>): seq<Write>
    decreases |feed|
  {
    if feed == [] then []
    else
      var last := feed[|feed| - 1];
      RelayedLines(feed[..|feed| - 1]) + (if last.Line? then [Relayed(last.text)] else [])
  }

  /** Without error payloads every scanned line is relayed unchanged and in order, the usage is
      the last chunk's, and the stream fails exactly when [DONE] is missing. */
  lemma CleanStreamIsRelayedVerbatim(p: Params, feed: seq<Item>)
    requires !SawError(feed)
    ensures var r := Pipe(p, feed);
            && !r.retryEarly
            && (r.failed <==> !SawDone(feed))
            && r.usage == LastUsage(feed, p.texts)
            && r.out == RelayedLines(feed) + (if SawDone(feed) then [] else [ErrorEvent("model-proxy: upstream stream interrupted before [DONE]", "stream_interrupted"), DoneEvent])
  {
    CleanFold(p, feed);
    FlagsDescribeFeed(p, feed);
  }

  lemma {:induction false} CleanFold(p: Params, feed: seq<Item>)
    requires !SawError(feed)
    ensures Fold(p, feed).Running?
    ensures Fold(p, feed).s.hold.NoHold? && !Fold(p, feed).s.err
    ensures Fold(p, feed).s.out == RelayedLines(feed)
    decreases |feed|
  {
    if feed != [] {
      var n := |feed| - 1;
      assert forall i :: 0 <= i < n ==> feed[..n][i] == feed[i];
      CleanFold(p, feed[..n]);
      assert !(feed[n].Line? && IsError(feed[n].text));
    }
  }
}
