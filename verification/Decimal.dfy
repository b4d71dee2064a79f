/** Decimal numbers as the bus and the claim registry print and parse them
    (strconv and fmt, 64 bits wide). */
module Decimal {
  import opened Text

  const TWO63: int := 0x8000_0000_0000_0000
  const TWO64: int := 0x1_0000_0000_0000_0000
  const MAX_INT64: int := TWO63 - 1

  /** int64 arithmetic wraps around. */
  function Wrap(n: int): (r: int)
    ensures -TWO63 <= r < TWO63
  {
    (n + TWO63) % TWO64 - TWO63
  }

  /** The conversion from int64 to uint64, and back. */
  function ToUint(n: int): (u: nat)
    requires -TWO63 <= n < TWO63
    ensures u < TWO64
  {
    if n < 0 then n + TWO64 else n
  }

  function ToInt(u: nat): (r: int)
    requires u < TWO64
    ensures -TWO63 <= r < TWO63 && ToUint(r) == u
  {
    if u < TWO63 then u else u - TWO64
  }

  lemma SameBits(n: int)
    requires -TWO63 <= n < TWO63
    ensures ToInt(ToUint(n)) == n
  {
  }

  predicate IsDigit(c: char) {
    '0' <= c <= '9'
  }

  predicate AllDigits(s: string) {
    forall i :: 0 <= i < |s| ==> IsDigit(s[i])
  }

  function DigitChar(d: nat): (c: char)
    requires d < 10
    ensures IsDigit(c) && DigitValue(c) == d
  {
    ('0' as int + d) as char
  }

  function DigitValue(c: char): nat
    requires IsDigit(c)
  {
    c as int - '0' as int
  }

  function Digits(n: nat): (s: string)
    ensures s != "" && AllDigits(s)
  {
    if n < 10 then [DigitChar(n)] else Digits(n / 10) + [DigitChar(n % 10)]
  }

  function Value(s: string): nat
    requires AllDigits(s)
  {
    if s == "" then 0 else Value(s[..|s| - 1]) * 10 + DigitValue(s[|s| - 1])
  }

  /** Zero-padding on the left. */
  function Pad(s: string, width: nat): string
    decreases width
  {
    if |s| < width then ['0'] + Pad(s, width - 1) else s
  }

  lemma {:induction false} ValueOfDigits(n: nat)
    ensures Value(Digits(n)) == n
  {
    if n >= 10 {
      ValueOfDigits(n / 10);
      var s := Digits(n / 10) + [DigitChar(n % 10)];
      assert s[..|s| - 1] == Digits(n / 10);
    }
  }

  lemma {:induction false} ValueOfLeadingZero(s: string)
    requires AllDigits(s)
    ensures AllDigits(['0'] + s) && Value(['0'] + s) == Value(s)
  {
    if s != "" {
      var n := |s| - 1;
      ValueOfLeadingZero(s[..n]);
      assert (['0'] + s)[..|['0'] + s| - 1] == ['0'] + s[..n];
    } else {
      assert ['0'] + s == ['0'];
      assert ['0'][..0] == "";
    }
  }

  lemma {:induction false} ValueOfPadded(s: string, width: nat)
    requires AllDigits(s)
    ensures AllDigits(Pad(s, width)) && Value(Pad(s, width)) == Value(s)
    ensures s != "" ==> Pad(s, width) != ""
    decreases width
  {
    if |s| < width {
      ValueOfPadded(s, width - 1);
      ValueOfLeadingZero(Pad(s, width - 1));
    }
  }

  /** strconv.ParseUint(s, 10, 64) */
  function ParseUint(s: string): (r: Option<nat>)
    ensures r.Some? ==> r.value < TWO64
  {
    if s == "" || !AllDigits(s) || Value(s) >= TWO64 then None else Some(Value(s))
  }

  /** strconv.ParseInt(s, 10, 64) */
  function ParseInt(s: string): (r: Option<int>)
    ensures r.Some? ==> -TWO63 <= r.value < TWO63
  {
    var negative := HasPrefix(s, "-");
    var body := if negative || HasPrefix(s, "+") then s[1..] else s;
    if body == "" || !AllDigits(body) then None
    else if negative then (if Value(body) > TWO63 then None else Some(-(Value(body) as int)))
    else if Value(body) >= TWO63 then None
    else Some(Value(body))
  }

  /** strconv.FormatInt(n, 10) */
  function FormatInt(n: int): string {
    if n < 0 then "-" + Digits(-n) else Digits(n)
  }

  /** fmt.Sprintf("%04d", n) */
  function FormatPadded(n: int): string {
    if n < 0 then "-" + Pad(Digits(-n), 3) else Pad(Digits(n), 4)
  }

  lemma {:induction false} DigitsAreShort(n: nat)
    ensures Digits(n)[0] == '0' <==> n == 0
    ensures n == 0 ==> |Digits(n)| == 1
  {
    if n >= 10 {
      DigitsAreShort(n / 10);
    }
  }

  lemma {:induction false} PadIs(s: string, width: nat) returns (zeros: string)
    ensures Pad(s, width) == zeros + s && |Pad(s, width)| == if |s| < width then width else |s|
    ensures forall i :: 0 <= i < |zeros| ==> zeros[i] == '0'
    decreases width
  {
    zeros := "";
    if |s| < width {
      var fewer := PadIs(s, width - 1);
      zeros := ['0'] + fewer;
    }
  }

  /** How a number is printed: a minus exactly for a negative one, then digits without a needless zero; and
      padded, with zeros between the two until there are four characters. */
  lemma PaddedToFour(n: int) returns (zeros: string)
    ensures var sign, digits := if n < 0 then "-" else "", Digits(if n < 0 then -n else n);
            && FormatInt(n) == sign + digits && (digits[0] == '0' <==> n == 0) && (n == 0 ==> digits == "0")
            && FormatPadded(n) == sign + zeros + digits
            && |FormatPadded(n)| == if |FormatInt(n)| < 4 then 4 else |FormatInt(n)|
    ensures forall i :: 0 <= i < |zeros| ==> zeros[i] == '0'
  {
    var digits := Digits(if n < 0 then -n else n);
    DigitsAreShort(if n < 0 then -n else n);
    zeros := PadIs(digits, if n < 0 then 3 else 4);
    assert "-" + (zeros + digits) == "-" + zeros + digits && "" + zeros + digits == zeros + digits;
  }

  lemma ParseFormattedInt(n: int)
    requires -TWO63 <= n < TWO63
    ensures ParseInt(FormatInt(n)) == Some(n)
  {
    if n < 0 {
      ValueOfDigits(-n);
      assert ("-" + Digits(-n))[1..] == Digits(-n);
    } else {
      ValueOfDigits(n);
      assert IsDigit(Digits(n)[0]);
    }
  }

  lemma FormatIntHasNo(n: int, c: char)
    requires c != '-' && !IsDigit(c)
    ensures c !in FormatInt(n)
  {
  }

  // ---------- message ids ----------

  /** "m%04d" */
  function FormatId(n: int): string {
    "m" + FormatPadded(n)
  }

  /** parseIDNum: 0 for anything that is no number. */
  function ParseIdNum(id: string): (r: nat)
    ensures r < TWO64
  {
    match ParseUint(TrimPrefix(id, "m"))
    case None => 0
    case Some(v) => v
  }

  /** parseIDNum inverts the printing for every number it can hold, however many digits; a
      negative number (after a wrapped counter) reads as 0. */
  lemma ParseInvertsFormat(n: int)
    requires -TWO63 <= n < TWO64
    ensures ParseIdNum(FormatId(n)) == if n >= 0 then n else 0
  {
    assert ("m" + FormatPadded(n))[1..] == FormatPadded(n);
    if n >= 0 {
      ValueOfDigits(n);
      ValueOfPadded(Digits(n), 4);
    } else {
      assert FormatPadded(n)[0] == '-' && !IsDigit('-');
    }
  }

  /** Different numbers print differently. */
  lemma FormatIdInjective(a: int, b: int)
    requires 0 <= a < TWO64 && 0 <= b < TWO64 && FormatId(a) == FormatId(b)
    ensures a == b
  {
    ParseInvertsFormat(a);
    ParseInvertsFormat(b);
  }
}
