/**
 * The display helpers `formatTime` and `formatDuration` of src/pages/Home.tsx
 * (lines 178-188). `formatTime` renders the inactivity countdown as `m:ss`; it is
 * only ever given `Math.ceil` of a positive remaining time, so its argument is a
 * natural number here. `formatDuration` renders a session duration in seconds as
 * `Xm Ys`, or `Ys` under a minute. Each is paired with a parser proved to invert it.
 */
module TimeFormat {
  import opened Wrappers

  predicate IsDigit(c: char) {
    '0' <= c <= '9'
  }

  predicate AllDigits(s: string) {
    forall i :: 0 <= i < |s| ==> IsDigit(s[i])
  }

  function DigitChar(d: nat): (c: char)
    requires d < 10
    ensures IsDigit(c) && c as int - '0' as int == d
  {
    ('0' as int + d) as char
  }

  function DigitValue(c: char): (d: nat)
    requires IsDigit(c)
    ensures d < 10 && DigitChar(d) == c
  {
    c as int - '0' as int
  }

  /** The decimal numeral of `n`, as `n.toString()` writes it. */
  function NatToString(n: nat): (s: string)
    ensures |s| >= 1 && AllDigits(s)
    ensures n < 10 <==> |s| == 1
    decreases n
  {
    if n < 10 then [DigitChar(n)] else NatToString(n / 10) + [DigitChar(n % 10)]
  }

  /** The value of a decimal numeral. */
  function ParseDigits(s: string): nat
    requires AllDigits(s)
    decreases |s|
  {
    if s == [] then 0 else ParseDigits(s[..|s| - 1]) * 10 + DigitValue(s[|s| - 1])
  }

  lemma {:induction false} ParseNatToString(n: nat)
    ensures ParseDigits(NatToString(n)) == n
    decreases n
  {
    if n >= 10 {
      var s := NatToString(n);
      assert s[..|s| - 1] == NatToString(n / 10);
      ParseNatToString(n / 10);
    }
  }

  /** A numeral never starts with a redundant zero. */
  lemma {:induction false} NoLeadingZero(n: nat)
    ensures NatToString(n)[0] == '0' <==> n == 0
    decreases n
  {
    if n >= 10 {
      NoLeadingZero(n / 10);
    }
  }

  /** `s.padStart(2, '0')` */
  function PadStart2(s: string): (r: string)
    ensures |s| >= 2 ==> r == s
    ensures |s| < 2 ==> |r| == 2 && r[2 - |s|..] == s && forall i :: 0 <= i < 2 - |s| ==> r[i] == '0'
  {
    if |s| >= 2 then s else if |s| == 1 then ['0'] + s else "00"
  }

  /** `formatTime(seconds)` for a whole number of seconds. */
  function FormatTime(seconds: nat): string {
    NatToString(seconds / 60) + ":" + PadStart2(NatToString(seconds % 60))
  }

  /** Reads `m:ss` back: digits, a colon, and exactly two digits. */
  function ParseClock(t: string): Option<nat> {
    if |t| >= 4 && t[|t| - 3] == ':' && AllDigits(t[..|t| - 3]) && AllDigits(t[|t| - 2..])
    then Some(ParseDigits(t[..|t| - 3]) * 60 + ParseDigits(t[|t| - 2..]))
    else None
  }

  /** The seconds field is always two digits, zero-padded. */
  lemma SecondsField(n: nat)
    ensures var s := PadStart2(NatToString(n % 60));
      |s| == 2 && AllDigits(s) && ParseDigits(s) == n % 60
  {
    var digits := NatToString(n % 60);
    ParseNatToString(n % 60);
    if |digits| == 1 {
      var s := PadStart2(digits);
      assert s == ['0'] + digits;
      assert s[..1] == "0";
    } else {
      assert n % 60 >= 10;
    }
  }

  /** The countdown text reads back as the number of seconds it shows. */
  lemma ParseFormatTime(n: nat)
    ensures ParseClock(FormatTime(n)) == Some(n)
  {
    var m := NatToString(n / 60);
    var ss := PadStart2(NatToString(n % 60));
    SecondsField(n);
    ParseNatToString(n / 60);
    var t := FormatTime(n);
    assert t == m + ":" + ss;
    assert t[..|t| - 3] == m;
    assert t[|t| - 2..] == ss;
  }

  /** `Math.floor` */
  function Floor(x: real): int {
    x.Floor
  }

  /**
   * `Math.trunc`: the integer nearest to `x` on the side of zero, so it never
   * exceeds `x` in magnitude and differs from it by less than one.
   */
  function Trunc(x: real): (r: int)
    ensures x >= 0.0 ==> 0 <= r && r as real <= x < r as real + 1.0
    ensures x < 0.0 ==> r <= 0 && r as real - 1.0 < x <= r as real
  {
    if x >= 0.0 then x.Floor else -((-x).Floor)
  }

  /** JavaScript's `x % m` on numbers, `x` less a whole number of `m` rounded toward zero. */
  function JsRem(x: real, m: real): real
    requires m != 0.0
  {
    x - m * Trunc(x / m) as real
  }

  /**
   * For a positive modulus the remainder takes the sign of `x` and is smaller
   * than `m` in magnitude.
   */
  lemma JsRemSign(x: real, m: real)
    requires m > 0.0
    ensures x >= 0.0 ==> 0.0 <= JsRem(x, m) < m
    ensures x < 0.0 ==> -m < JsRem(x, m) <= 0.0
  {
    var q := x / m;
    var t := Trunc(q) as real;
    var d := q - t;
    var r := JsRem(x, m);
    QuotientSign(x, m);
    RemainderScaled(x, m, q, t);
    assert r == m * d;
    ScaleFraction(d, m, r);
  }

  lemma RemainderScaled(x: real, m: real, q: real, t: real)
    requires m * q == x
    ensures x - m * t == m * (q - t)
  {
  }

  lemma QuotientSign(x: real, m: real)
    requires m > 0.0
    ensures m * (x / m) == x
    ensures x >= 0.0 <==> x / m >= 0.0
  {
  }

  lemma ScaleFraction(d: real, m: real, r: real)
    requires m > 0.0 && r == m * d
    ensures 0.0 <= d < 1.0 ==> 0.0 <= r < m
    ensures -1.0 < d <= 0.0 ==> -m < r <= 0.0
  {
    if 0.0 <= d < 1.0 {
      var e := 1.0 - d;
      assert m * e > 0.0;
      assert m - r == m * e;
    }
    if -1.0 < d <= 0.0 {
      var e := 1.0 + d;
      assert m * e > 0.0;
      assert m + r == m * e;
      assert m * -d >= 0.0;
    }
  }

  /** `n.toString()` for an integer, with a leading minus sign when negative. */
  function IntToString(i: int): string {
    if i < 0 then "-" + NatToString(-i) else NatToString(i)
  }

  /** `formatDuration(seconds)` */
  function FormatDuration(seconds: real): string {
    var mins := Floor(seconds / 60.0);
    var secs := Floor(JsRem(seconds, 60.0));
    if mins > 0 then IntToString(mins) + "m " + IntToString(secs) + "s" else IntToString(secs) + "s"
  }

  /** The position of the first `c` in `s`, or `|s|` when there is none. */
  function IndexOf(s: string, c: char): (k: nat)
    ensures k <= |s| && (k < |s| ==> s[k] == c) && forall i :: 0 <= i < k ==> s[i] != c
    decreases |s|
  {
    if s == [] then 0 else if s[0] == c then 0 else 1 + IndexOf(s[1..], c)
  }

  /** A numeral as a number, or `None` when it is empty or holds anything but digits. */
  function ParseNumeral(s: string): Option<nat> {
    if s != [] && AllDigits(s) then Some(ParseDigits(s)) else None
  }

  lemma ParseNumeralToString(n: nat)
    ensures ParseNumeral(NatToString(n)) == Some(n)
  {
    ParseNatToString(n);
  }

  /** Reads `Xm Ys` or `Ys` (non-negative fields) back as whole seconds. */
  function ParseDuration(t: string): Option<nat> {
    if |t| < 2 || t[|t| - 1] != 's' then None else ParseFields(t[..|t| - 1])
  }

  /** The text before the final `s`: seconds alone, or minutes, `m`, and the rest. */
  function ParseFields(body: string): Option<nat> {
    var k := IndexOf(body, 'm');
    if k == |body| then ParseNumeral(body) else ParseMinutes(body[..k], body[k + 1..])
  }

  /** The minutes numeral `m` and what follows its `m`: a space, then the seconds. */
  function ParseMinutes(m: string, rest: string): Option<nat> {
    if rest == [] || rest[0] != ' ' then None
    else
      var mins := ParseNumeral(m);
      var secs := ParseNumeral(rest[1..]);
      if mins.Some? && secs.Some? then Some(mins.value * 60 + secs.value) else None
  }

  /** For a non-negative duration, whole minutes and the seconds left over. */
  lemma DurationFields(seconds: real)
    requires seconds >= 0.0
    ensures var mins := Floor(seconds / 60.0);
      var secs := Floor(JsRem(seconds, 60.0));
      mins >= 0 && 0 <= secs < 60 && mins * 60 + secs == Floor(seconds) &&
      (mins > 0 <==> seconds >= 60.0)
  {
    var mins := Floor(seconds / 60.0);
    var rest := seconds - 60.0 * mins as real;
    assert JsRem(seconds, 60.0) == rest;
    assert 0.0 <= rest < 60.0;
    assert Floor(rest) == Floor(seconds) - mins * 60;
  }

  /** The final `s` is stripped before the fields are read. */
  lemma ParseStripsSuffix(body: string)
    requires body != []
    ensures ParseDuration(body + "s") == ParseFields(body)
  {
    var t := body + "s";
    assert t[..|t| - 1] == body;
  }

  /** A numeral holds no `m`, so the first `m` after it is the separator. */
  lemma IndexAfterNumeral(ms: string, rest: string)
    requires AllDigits(ms) && |rest| > 0 && rest[0] == 'm'
    ensures IndexOf(ms + rest, 'm') == |ms|
  {
    assert (ms + rest)[|ms|] == 'm';
  }

  /** `Ys` reads back as its seconds. */
  lemma ParseSeconds(secs: nat)
    ensures ParseDuration(NatToString(secs) + "s") == Some(secs)
  {
    var ss := NatToString(secs);
    ParseNumeralToString(secs);
    ParseStripsSuffix(ss);
    IndexAfterNumeral(ss, "m");
    assert IndexOf(ss, 'm') == |ss|;
  }

  /** After a minutes numeral, the first `m` splits the minutes from the rest. */
  lemma ParseFieldsSplitsAtM(ms: string, ss: string)
    requires AllDigits(ms)
    ensures ParseFields(ms + ("m " + ss)) == ParseMinutes(ms, " " + ss)
  {
    var body := ms + ("m " + ss);
    IndexAfterNumeral(ms, "m " + ss);
    assert body[..|ms|] == ms;
    assert body[|ms| + 1..] == " " + ss;
  }

  lemma ParseMinutesNumerals(ms: string, ss: string)
    requires ms != [] && ss != [] && AllDigits(ms) && AllDigits(ss)
    ensures ParseMinutes(ms, " " + ss) == Some(ParseDigits(ms) * 60 + ParseDigits(ss))
  {
    assert (" " + ss)[1..] == ss;
  }

  /** `Xm Ys`, written `t`, with numerals `ms` and `ss` reads back as its minutes and seconds. */
  lemma ParseMinutesSeconds(ms: string, ss: string, t: string)
    requires ms != [] && ss != [] && AllDigits(ms) && AllDigits(ss)
    requires t == ms + "m " + ss + "s"
    ensures ParseDuration(t) == Some(ParseDigits(ms) * 60 + ParseDigits(ss))
  {
    var body := ms + ("m " + ss);
    assert t == body + "s";
    ParseStripsSuffix(body);
    ParseFieldsSplitsAtM(ms, ss);
    ParseMinutesNumerals(ms, ss);
  }

  lemma DivModOf(n: int, q: int, r: int)
    requires 0 <= r < 60 && n == q * 60 + r
    ensures n / 60 == q && n % 60 == r
  {
  }

  /** Under a minute only seconds are shown; from a minute on, minutes and seconds. */
  lemma FormatDurationShape(seconds: real)
    requires seconds >= 0.0
    ensures var t := FormatDuration(seconds);
      (seconds < 60.0 ==> t == NatToString(Floor(seconds)) + "s") &&
      (seconds >= 60.0 ==> t == NatToString(Floor(seconds) / 60) + "m " + NatToString(Floor(seconds) % 60) + "s")
  {
    var mins := Floor(seconds / 60.0);
    var secs := Floor(JsRem(seconds, 60.0));
    DurationFields(seconds);
    DivModOf(Floor(seconds), mins, secs);
    assert IntToString(secs) == NatToString(secs);
    assert IntToString(mins) == NatToString(mins);
  }

  /** The displayed duration reads back as the whole seconds of the duration. */
  lemma ParseFormatDuration(seconds: real)
    requires seconds >= 0.0
    ensures ParseDuration(FormatDuration(seconds)) == Some(Floor(seconds))
  {
    FormatDurationShape(seconds);
    var n: nat := Floor(seconds);
    if seconds >= 60.0 {
      ParseNatToString(n / 60);
      ParseNatToString(n % 60);
      ParseMinutesSeconds(NatToString(n / 60), NatToString(n % 60), FormatDuration(seconds));
    } else {
      ParseSeconds(n);
    }
  }
}
