/**
 * The pure helpers of the conversation history screen
 * (mobile/src/screens/HistoryScreen.tsx): the "{m}m {s}s" duration, the
 * relative age of a conversation, and the duration column of a row.
 * The current time is a parameter, and so is the locale's rendering of the
 * date used for conversations a week old or more.
 */
module HistoryScreen {
  import opened Wrappers
  import opened Text

  /** `formatDuration`: floor of the minutes, then the JavaScript remainder of the seconds. */
  function FormatDuration(seconds: int): string {
    IntToString(seconds / 60) + "m " + IntToString(TruncRem(seconds, 60)) + "s"
  }

  /** Reads a "{m}m {s}s" duration back into seconds; anything else is `None`. */
  function ParseDuration(s: string): Option<nat> {
    if |s| < 1 || s[|s| - 1] != 's' then None
    else
      var parts := Split(s[..|s| - 1], ' ');
      if |parts| != 2 || |parts[0]| < 1 || parts[0][|parts[0]| - 1] != 'm' then None
      else
        match (ParseNat(parts[0][..|parts[0]| - 1]), ParseNat(parts[1]))
        case (Some(m), Some(sec)) => if sec < 60 then Some(m * 60 + sec) else None
        case _ => None
  }

  /**
   * For a non-negative duration the two numbers shown are `floor(s / 60)`
   * and `s % 60 < 60`, and `mins * 60 + secs == s`: reading the text back
   * gives the duration.
   */
  lemma DurationRoundTrip(s: nat)
    ensures ParseDuration(FormatDuration(s)) == Some(s)
  {
    assert FormatDuration(s) == NatToString(s / 60) + "m " + NatToString(s % 60) + "s";
    ParseDurationOf(s / 60, s % 60);
  }

  /** Reading "{m}m {sec}s" with decimal `m` and `sec < 60` gives `m * 60 + sec`. */
  lemma ParseDurationOf(m: nat, sec: nat)
    requires sec < 60
    ensures ParseDuration(NatToString(m) + "m " + NatToString(sec) + "s") == Some(m * 60 + sec)
  {
    NatToStringRoundTrip(m);
    NatToStringRoundTrip(sec);
    ParseDurationText(NatToString(m), NatToString(sec), m, sec);
  }

  /** The same for any space-free texts the minutes and the seconds are read from. */
  lemma ParseDurationText(ms: string, ss: string, m: nat, sec: nat)
    requires ParseNat(ms) == Some(m) && ParseNat(ss) == Some(sec) && sec < 60
    ensures ParseDuration(ms + "m " + ss + "s") == Some(m * 60 + sec)
  {
    var a := ms + ['m'];
    var r := ms + "m " + ss + "s";
    assert r[|r| - 1] == 's' && r[..|r| - 1] == a + [' '] + ss by {
      assert r == a + [' '] + ss + ['s'];
    }
    assert ' ' !in a && ' ' !in ss;
    SplitPair(a, ss, ' ');
    assert a[|a| - 1] == 'm' && a[..|a| - 1] == ms;
    ParseDurationShape(r, a, ss, m, sec);
  }

  /** Two separator-free pieces joined by the separator split back into the two. */
  lemma SplitPair(a: string, b: string, sep: char)
    requires sep !in a && sep !in b
    ensures Split(a + [sep] + b, sep) == [a, b]
  {
    SplitNone(b, sep);
    SplitFirst(a, sep, b);
  }

  /** What `ParseDuration` reads from a text of the form "{a} {b}s" whose `a` ends in 'm'. */
  lemma ParseDurationShape(r: string, a: string, b: string, m: nat, sec: nat)
    requires |r| >= 1 && r[|r| - 1] == 's' && Split(r[..|r| - 1], ' ') == [a, b]
    requires |a| >= 1 && a[|a| - 1] == 'm'
    requires ParseNat(a[..|a| - 1]) == Some(m) && ParseNat(b) == Some(sec) && sec < 60
    ensures ParseDuration(r) == Some(m * 60 + sec)
  {
  }

  const MinuteMs := 60000
  const HourMs := 3600000
  const DayMs := 86400000
  const WeekMs := 604800000

  /**
   * `formatRelativeTime`: the age of a date measured in whole minutes, then
   * whole hours of those minutes, then whole days of those hours (each a floor).
   */
  function FormatRelativeTime(dateMs: int, nowMs: int, localeDate: string): string {
    var diffMs := nowMs - dateMs;
    var diffMins := diffMs / 60000;
    var diffHours := diffMins / 60;
    var diffDays := diffHours / 24;
    if diffMins < 1 then "Just now"
    else if diffMins < 60 then IntToString(diffMins) + "m ago"
    else if diffHours < 24 then IntToString(diffHours) + "h ago"
    else if diffDays < 7 then IntToString(diffDays) + "d ago"
    else localeDate
  }

  /**
   * The bands of `formatRelativeTime`, stated on the millisecond difference:
   * under a minute (a date in the future included) is "Just now", then whole
   * minutes, whole hours and whole days, and a week or more is the locale's date.
   */
  lemma RelativeTimeBands(dateMs: int, nowMs: int, localeDate: string)
    ensures nowMs - dateMs < MinuteMs ==> FormatRelativeTime(dateMs, nowMs, localeDate) == "Just now"
    ensures MinuteMs <= nowMs - dateMs < HourMs ==>
      FormatRelativeTime(dateMs, nowMs, localeDate) == NatToString((nowMs - dateMs) / MinuteMs) + "m ago"
    ensures HourMs <= nowMs - dateMs < DayMs ==>
      FormatRelativeTime(dateMs, nowMs, localeDate) == NatToString((nowMs - dateMs) / HourMs) + "h ago"
    ensures DayMs <= nowMs - dateMs < WeekMs ==>
      FormatRelativeTime(dateMs, nowMs, localeDate) == NatToString((nowMs - dateMs) / DayMs) + "d ago"
    ensures WeekMs <= nowMs - dateMs ==> FormatRelativeTime(dateMs, nowMs, localeDate) == localeDate
  {
    var d := nowMs - dateMs;
    DivDiv(d, 60000, 60);
    DivDiv(d, 3600000, 24);
    assert d / 60000 / 60 / 24 == d / DayMs;
    if d < MinuteMs {
      DivBelow(d, MinuteMs);
    } else {
      DivBounds(d, MinuteMs, 60);
      DivBounds(d, HourMs, 24);
      DivBounds(d, DayMs, 7);
      DivBounds(d, WeekMs, 1);
    }
  }

  lemma DivBelow(x: int, d: int)
    requires d > 0 && x < d
    ensures x / d < 1
  {
    if x / d >= 1 {
      MulBounds(d, x / d);
    }
  }

  /** Whole units of a positive divisor: never negative, at least one from `d`, below `k` under `d * k`. */
  lemma DivBounds(x: int, d: int, k: int)
    requires d > 0 && x >= 0
    ensures x / d >= 0
    ensures x < d * k ==> x / d < k
    ensures x >= d ==> x / d >= 1
  {
    var q := x / d;
    assert x == d * q + x % d;
    if q < 0 {
      MulBounds(d, q);
    }
    if q >= k {
      MulMono(d, k, q);
    }
    if q < 1 {
      MulMono(d, q, 0);
    }
  }

  lemma MulMono(d: int, a: int, b: int)
    requires d > 0 && a <= b
    ensures d * a <= d * b
  {
    if a < b {
      MulBounds(d, b - a);
      assert d * b == d * a + d * (b - a);
    }
  }

  /** The duration column of a history row: "N/A" when there is no duration or it is zero. */
  function DurationLabel(duration: Option<int>): (r: string)
    ensures r == "N/A" <==> duration.None? || duration.value == 0
    ensures duration.Some? && duration.value != 0 ==> r == FormatDuration(duration.value)
  {
    if duration.None? || duration.value == 0 then "N/A" else FormatDuration(duration.value)
  }
}
