/** `src/lib/utils.ts`: track durations as `m:ss`, and the magnitude suffix
    that `formatNumber` chooses for follower counts. */
module Utils {
  import opened Common
  import opened Decimal
  import opened Text

  /** JavaScript's `a % b`: the remainder takes the sign of the dividend. */
  function JsRem(a: int, b: int): (r: int)
    requires b > 0
    ensures a >= 0 ==> 0 <= r < b
    ensures a < 0 ==> -b < r <= 0
    ensures a >= 0 ==> r == a % b
  {
    if a >= 0 then a % b else -((-a) % b)
  }

  /** `Math.floor(ms / 60000)`; Dafny's `/` by a positive divisor floors. */
  function Minutes(ms: int): (m: int)
    ensures ms >= 0 ==> m >= 0
  {
    ms / 60000
  }

  /** `Math.floor((ms % 60000) / 1000)`. */
  function Seconds(ms: int): (sec: int)
    ensures ms >= 0 ==> 0 <= sec < 60
  {
    JsRem(ms, 60000) / 1000
  }

  /** `String.prototype.padStart(width, fill)`. */
  function PadStart(s: string, width: nat, fill: char): (r: string)
    ensures |r| == if |s| >= width then |s| else width
    ensures r[|r| - |s|..] == s
    ensures forall i :: 0 <= i < |r| - |s| ==> r[i] == fill
    decreases width - |s|
  {
    if |s| >= width then s else PadStart([fill] + s, width, fill)
  }

  /** `seconds.toString().padStart(2, '0')`. */
  function SecondsText(sec: int): string
  {
    PadStart(IntToString(sec), 2, '0')
  }

  /** `formatDuration(ms)`: minutes, a colon, and the seconds zero-padded to two places. */
  function FormatDuration(ms: int): string
  {
    IntToString(Minutes(ms)) + ":" + SecondsText(Seconds(ms))
  }

  /** For a non-negative duration the seconds field is always in 0..59. */
  lemma SecondsInRange(ms: int)
    requires ms >= 0
    ensures 0 <= Seconds(ms) < 60
    ensures Seconds(ms) == (ms % 60000) / 1000
  {
  }

  /** The displayed time truncates, never rounds up: it is at most `ms` and
      less than a second short of it. */
  lemma FormatDurationTruncates(ms: int)
    requires ms >= 0
    ensures Minutes(ms) * 60000 + Seconds(ms) * 1000 <= ms
    ensures ms < Minutes(ms) * 60000 + Seconds(ms) * 1000 + 1000
  {
    var q, r := ms / 60000, ms % 60000;
    assert ms == q * 60000 + r;
    var s, t := r / 1000, r % 1000;
    assert r == s * 1000 + t;
  }

  /** The two-character seconds field of a duration and its value. */
  lemma TwoDigitSeconds(sec: nat)
    requires sec < 60
    ensures |SecondsText(sec)| == 2 && AllDigits(SecondsText(sec)) && DigitsValue(SecondsText(sec)) == sec
  {
    var f := SecondsText(sec);
    if sec < 10 {
      assert f == ['0', DigitChar(sec)];
      assert f[..1] == ['0'];
      assert f[..1][..0] == [];
      assert DigitsValue(f[..1]) == 0;
      assert DigitValue(f[1]) == sec;
    } else {
      assert NatToString(sec / 10) == [DigitChar(sec / 10)];
      assert f == [DigitChar(sec / 10), DigitChar(sec % 10)];
      assert f[..1] == [DigitChar(sec / 10)];
      assert f[..1][..0] == [];
      assert DigitsValue(f[..1]) == sec / 10;
      assert DigitValue(f[1]) == sec % 10;
    }
  }

  /** The number of occurrences of `c` in `s`. */
  function Count(s: string, c: char): nat
  {
    if s == [] then 0 else Count(s[..|s| - 1], c) + (if s[|s| - 1] == c then 1 else 0)
  }

  lemma {:induction false} CountAppend(a: string, b: string, c: char)
    ensures Count(a + b, c) == Count(a, c) + Count(b, c)
    decreases |b|
  {
    if b == [] {
      assert a + b == a;
    } else {
      assert (a + b)[..|a + b| - 1] == a + b[..|b| - 1];
      assert (a + b)[|a + b| - 1] == b[|b| - 1];
      CountAppend(a, b[..|b| - 1], c);
    }
  }

  lemma {:induction false} CountAbsent(s: string, c: char)
    requires c !in s
    ensures Count(s, c) == 0
  {
    if s != [] {
      CountAbsent(s[..|s| - 1], c);
    }
  }

  /** Reads an `m:ss` text back as a whole number of seconds. */
  function ParseDuration(s: string): Option<int>
  {
    match IndexOf(s, ':')
    case None => None
    case Some(k) =>
      var m, sec := s[..k], s[k + 1..];
      if |m| >= 1 && AllDigits(m) && |sec| == 2 && AllDigits(sec)
      then Some(DigitsValue(m) * 60 + DigitsValue(sec))
      else None
  }

  /** The two fields of `formatDuration(ms)` for `ms >= 0`. */
  lemma DurationFields(ms: int)
    requires ms >= 0
    ensures FormatDuration(ms) == NatToString(Minutes(ms)) + ":" + SecondsText(Seconds(ms))
    ensures |SecondsText(Seconds(ms))| == 2 && AllDigits(SecondsText(Seconds(ms)))
    ensures DigitsValue(SecondsText(Seconds(ms))) == (ms % 60000) / 1000
  {
    assert IntToString(Minutes(ms)) == NatToString(Minutes(ms));
    TwoDigitSeconds(Seconds(ms));
    SecondsInRange(ms);
  }

  /** `m * 60 + s` seconds, for the minutes and seconds fields of `ms`, is `ms div 1000`. */
  lemma WholeSeconds(ms: int)
    requires ms >= 0
    ensures (ms / 60000) * 60 + (ms % 60000) / 1000 == ms / 1000
  {
    var q, rest := ms / 60000, ms % 60000;
    var s, t := rest / 1000, rest % 1000;
    assert ms == q * 60000 + rest;
    assert rest == s * 1000 + t;
    assert ms == (q * 60 + s) * 1000 + t;
  }

  lemma FieldsSplit(r: string, mt: string, st: string)
    requires |st| == 2 && r == mt + ":" + st
    ensures |r| >= 3 && r[..|r| - 3] == mt && r[|r| - 3] == ':' && r[|r| - 2..] == st
  {
  }

  lemma FieldsColon(r: string, mt: string, st: string)
    requires AllDigits(mt) && AllDigits(st) && r == mt + ":" + st
    ensures Count(r, ':') == 1
  {
    CountAppend(mt + ":", st, ':');
    CountAppend(mt, ":", ':');
    CountAbsent(mt, ':') by { assert forall i :: 0 <= i < |mt| ==> IsDigit(mt[i]); }
    CountAbsent(st, ':') by { assert forall i :: 0 <= i < |st| ==> IsDigit(st[i]); }
    assert Count(":", ':') == 1 by { assert ":"[..0] == []; }
  }

  lemma FieldsParse(r: string, mt: string, st: string)
    requires |mt| >= 1 && AllDigits(mt) && |st| == 2 && AllDigits(st) && r == mt + ":" + st
    ensures ParseDuration(r) == Some(DigitsValue(mt) * 60 + DigitsValue(st))
  {
    assert ':' !in mt by { assert forall i :: 0 <= i < |mt| ==> IsDigit(mt[i]); }
    assert r == mt + (":" + st);
    IndexOfAfterPrefix(mt, ":" + st, ':');
    assert r[..|mt|] == mt && r[|mt| + 1..] == st;
  }

  /** The shape of `formatDuration(ms)` for `ms >= 0`: the decimal minutes
      `ms div 60000`, a colon, and exactly two digits holding
      `(ms mod 60000) div 1000`, with no other colon. */
  lemma FormatDurationShape(ms: int)
    requires ms >= 0
    ensures |FormatDuration(ms)| >= 4
    ensures FormatDuration(ms)[..|FormatDuration(ms)| - 3] == NatToString(Minutes(ms))
    ensures FormatDuration(ms)[|FormatDuration(ms)| - 3] == ':'
    ensures AllDigits(FormatDuration(ms)[|FormatDuration(ms)| - 2..])
    ensures DigitsValue(FormatDuration(ms)[|FormatDuration(ms)| - 2..]) == (ms % 60000) / 1000
    ensures Count(FormatDuration(ms), ':') == 1
  {
    DurationFields(ms);
    var r, mt, st := FormatDuration(ms), NatToString(Minutes(ms)), SecondsText(Seconds(ms));
    FieldsSplit(r, mt, st);
    FieldsColon(r, mt, st);
  }

  /** Reading `formatDuration(ms)` back gives the whole seconds of `ms`:
      a round trip up to truncation. */
  lemma FormatDurationRoundTrip(ms: int)
    requires ms >= 0
    ensures ParseDuration(FormatDuration(ms)).Some?
    ensures ParseDuration(FormatDuration(ms)).value == ms / 1000
  {
    DurationFields(ms);
    var r, mt, st := FormatDuration(ms), NatToString(Minutes(ms)), SecondsText(Seconds(ms));
    FieldsParse(r, mt, st);
    NatToStringValue(Minutes(ms));
    WholeSeconds(ms);
    var m, sec := DigitsValue(mt), DigitsValue(st);
    assert m == Minutes(ms);
    assert sec == (ms % 60000) / 1000;
    assert ParseDuration(r).value == m * 60 + sec;
  }

  /** The magnitude `formatNumber` renders: `<n/1e6 to one place>M`,
      `<n/1e3 to one place>K`, or the locale text of the number itself. */
  datatype FormattedNumber = Scaled(quotient: real, suffix: char) | Localized(value: real)

  function Scale(suffix: char): real
  {
    if suffix == 'M' then 1000000.0 else 1000.0
  }

  /** `formatNumber(num)` with the digits of `toFixed(1)` and
      `toLocaleString()` abstracted. */
  function FormatNumber(num: real): (r: FormattedNumber)
    ensures r.Scaled? && r.suffix == 'M' <==> num >= 1000000.0
    ensures r.Scaled? && r.suffix == 'K' <==> 1000.0 <= num < 1000000.0
    ensures r.Localized? <==> num < 1000.0
    ensures r.Scaled? ==> r.quotient * Scale(r.suffix) == num
    ensures r.Localized? ==> r.value == num
  {
    if num >= 1000000.0 then Scaled(num / 1000000.0, 'M')
    else if num >= 1000.0 then Scaled(num / 1000.0, 'K')
    else Localized(num)
  }
}
