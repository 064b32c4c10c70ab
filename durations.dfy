/** Millisecond durations: rounding to tenths of an hour and the `"{h}h {m}m"` labels. */
module Durations {
  import opened Strings

  const MsPerMinute: int := 60000
  const MsPerHour: int := 3600000
  /** Hours are shown with one decimal, so the unit of a rounded hour count is 6 minutes. */
  const MsPerTenthHour: int := 360000

  /** `Math.round(n / d)` for `d > 0`: the integer nearest `n / d`, a half rounding up. */
  function RoundDiv(n: int, d: int): (r: int)
    requires d > 0
    ensures 2 * n - d < 2 * d * r <= 2 * n + d
  {
    var q := (2 * n + d) / (2 * d);
    assert 2 * n + d == (2 * d) * q + (2 * n + d) % (2 * d);
    q
  }

  /** `Math.round(hours * 10)` for a duration of `ms` milliseconds: hours in tenths. */
  function TenthsOfHour(ms: int): (r: int)
    ensures 2 * ms - MsPerTenthHour < 2 * MsPerTenthHour * r <= 2 * ms + MsPerTenthHour
  {
    RoundDiv(ms, MsPerTenthHour)
  }

  /** Rounding keeps the sign of a duration: zero or more milliseconds give zero or more tenths. */
  lemma TenthsOfHourNonNegative(ms: int)
    requires ms >= 0
    ensures TenthsOfHour(ms) >= 0
  {
  }

  /** JavaScript's `a % b` for `b > 0`: the remainder takes the sign of `a` (truncating division). */
  function JsRem(a: int, b: int): (r: int)
    requires b > 0
    ensures a >= 0 ==> 0 <= r < b
    ensures a < 0 ==> -b < r <= 0
  {
    if a >= 0 then a % b else -((-a) % b)
  }

  /** `Math.floor(ms / (1000 * 60 * 60))`: Dafny's `/` by a positive number is floor division. */
  function HoursPart(ms: int): int {
    ms / MsPerHour
  }

  /** `Math.floor((ms % (1000 * 60 * 60)) / (1000 * 60))`, with JavaScript's truncating `%`. */
  function MinutesPart(ms: int): int {
    JsRem(ms, MsPerHour) / MsPerMinute
  }

  /** For a non-negative duration the two parts are its whole hours and the whole minutes left over. */
  lemma PartsOfDuration(ms: int)
    requires ms >= 0
    ensures HoursPart(ms) >= 0 && 0 <= MinutesPart(ms) < 60
    ensures HoursPart(ms) * MsPerHour + MinutesPart(ms) * MsPerMinute <= ms
    ensures ms < HoursPart(ms) * MsPerHour + (MinutesPart(ms) + 1) * MsPerMinute
  {
    assert ms == HoursPart(ms) * MsPerHour + ms % MsPerHour;
  }

  /** The template literal `${hours}h ${mins}m` of a duration. */
  function DurationText(ms: int): (r: string)
    ensures |r| >= 4 && (IsDigit(r[0]) || r[0] == '-')
  {
    IntToString(HoursPart(ms)) + "h " + IntToString(MinutesPart(ms)) + "m"
  }

  /** A duration label is never one of the fixed markers the pages compare against. */
  lemma DurationTextIsNotMarker(ms: int)
    ensures DurationText(ms) != "Active"
    ensures DurationText(ms) != "Still here"
    ensures DurationText(ms) != "-"
  {
    var r := DurationText(ms);
    assert r[0] != 'A' && r[0] != 'S';
  }

  /** The length of the run of digits a string starts with. */
  function DigitRun(s: string): (n: nat)
    ensures n <= |s| && AllDigits(s[..n])
  {
    if s == "" || !IsDigit(s[0]) then 0 else 1 + DigitRun(s[1..])
  }

  /** Digits followed by a non-digit: the run ends exactly at the non-digit. */
  lemma {:induction false} DigitRunOfPrefix(a: string, c: char, x: string)
    requires AllDigits(a) && !IsDigit(c)
    ensures DigitRun(a + [c] + x) == |a|
  {
    if a != "" {
      assert (a + [c] + x)[1..] == a[1..] + [c] + x;
      DigitRunOfPrefix(a[1..], c, x);
    }
  }

  /** Two prefixes made of digits followed by the same non-digit must be the same. */
  lemma DigitsBeforeMarker(a: string, b: string, c: char, x: string, y: string)
    requires AllDigits(a) && AllDigits(b) && !IsDigit(c)
    requires a + [c] + x == b + [c] + y
    ensures a == b && x == y
  {
    DigitRunOfPrefix(a, c, x);
    DigitRunOfPrefix(b, c, y);
    assert a == (a + [c] + x)[..|a|] == (b + [c] + y)[..|b|] == b;
    assert x == (a + [c] + x)[|a| + 1..] == (b + [c] + y)[|b| + 1..] == y;
  }

  /** A label for a non-negative duration determines its hours and minutes. */
  lemma DurationTextDeterminesParts(ms1: int, ms2: int)
    requires ms1 >= 0 && ms2 >= 0
    requires DurationText(ms1) == DurationText(ms2)
    ensures HoursPart(ms1) == HoursPart(ms2) && MinutesPart(ms1) == MinutesPart(ms2)
  {
    PartsOfDuration(ms1);
    PartsOfDuration(ms2);
    var h1, h2 := NatToString(HoursPart(ms1)), NatToString(HoursPart(ms2));
    var m1, m2 := NatToString(MinutesPart(ms1)), NatToString(MinutesPart(ms2));
    assert DurationText(ms1) == h1 + ['h'] + (" " + m1 + "m");
    assert DurationText(ms2) == h2 + ['h'] + (" " + m2 + "m");
    DigitsBeforeMarker(h1, h2, 'h', " " + m1 + "m", " " + m2 + "m");
    assert m1 == (" " + m1 + "m")[1..|m1| + 1];
    assert m2 == (" " + m2 + "m")[1..|m2| + 1];
    NatToStringInjective(HoursPart(ms1), HoursPart(ms2));
    NatToStringInjective(MinutesPart(ms1), MinutesPart(ms2));
  }

  /** Two and a half hours reads "2h 30m". */
  lemma TwoAndAHalfHours()
    ensures DurationText(9000000) == "2h 30m"
  {
    assert HoursPart(9000000) == 2;
    assert MinutesPart(9000000) == 30;
    assert NatToString(30) == NatToString(3) + [DigitChar(0)];
  }
}
