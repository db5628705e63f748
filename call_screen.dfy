/**
 * The pure helpers of the call screen (mobile/src/screens/CallScreen.tsx):
 * the `MM:SS` call timer and the connection status line with its colour.
 */
module CallScreen {
  import opened Wrappers
  import opened Text
  import opened AppTypes

  /**
   * `formatDuration`: whole minutes (floor) and the JavaScript remainder of
   * the seconds, each left-padded with '0' to two characters.
   */
  function FormatDuration(seconds: int): string {
    PadStart(IntToString(seconds / 60), 2, '0') + ":" + PadStart(IntToString(TruncRem(seconds, 60)), 2, '0')
  }

  /** Reads an `MM:SS` timer back into seconds; anything else is `None`. */
  function ParseTimer(s: string): Option<nat> {
    var parts := Split(s, ':');
    if |parts| != 2 then None
    else
      match (ParseNat(parts[0]), ParseNat(parts[1]))
      case (Some(m), Some(sec)) => if sec < 60 then Some(m * 60 + sec) else None
      case _ => None
  }

  /** A non-negative count rendered with '0' padding reads back as itself. */
  lemma PaddedRoundTrip(n: nat, width: nat)
    ensures AllDigits(PadStart(NatToString(n), width, '0'))
    ensures ParseNat(PadStart(NatToString(n), width, '0')) == Some(n)
  {
    var digits := NatToString(n);
    var padded := PadStart(digits, width, '0');
    var zeros := padded[..|padded| - |digits|];
    assert padded == zeros + digits;
    NatToStringRoundTrip(n);
    LeadingZeros(zeros, digits);
  }

  /**
   * For a non-negative duration the timer is lossless: its two fields are
   * `floor(s / 60)` and `s % 60 < 60`, neither is cut short by the padding,
   * and reading them back gives `mins * 60 + secs == s`.
   */
  lemma TimerRoundTrip(s: nat)
    ensures ParseTimer(FormatDuration(s)) == Some(s)
  {
    var m := PadStart(NatToString(s / 60), 2, '0');
    var sec := PadStart(NatToString(s % 60), 2, '0');
    PaddedRoundTrip(s / 60, 2);
    PaddedRoundTrip(s % 60, 2);
    assert FormatDuration(s) == m + [':'] + sec;
    assert ':' !in m && ':' !in sec;
    SplitNone(sec, ':');
    SplitFirst(m, ':', sec);
  }

  /** A number below 100 padded to width two is its two decimal digits. */
  lemma TwoDigits(n: nat)
    requires n < 100
    ensures PadStart(NatToString(n), 2, '0') == [DigitChar(n / 10), DigitChar(n % 10)]
  {
    if n < 10 {
      assert NatToString(n) == [DigitChar(n)];
      assert DigitChar(0) == '0';
    } else {
      assert NatToString(n / 10) == [DigitChar(n / 10)];
    }
  }

  /** The seconds field is always exactly two digits, and the minutes field at least two. */
  lemma TimerFieldWidths(s: nat)
    ensures |FormatDuration(s)| >= 5
    ensures FormatDuration(s)[|FormatDuration(s)| - 3] == ':'
    ensures FormatDuration(s)[|FormatDuration(s)| - 2..] == [DigitChar(s % 60 / 10), DigitChar(s % 60 % 10)]
  {
    var m := PadStart(NatToString(s / 60), 2, '0');
    var sec := PadStart(NatToString(s % 60), 2, '0');
    TwoDigits(s % 60);
    var r := FormatDuration(s);
    assert r == m + [':'] + sec;
    assert r[|r| - 2..] == sec;
  }

  /** `getConnectionStatusText`. */
  function StatusText(connection: ConnectionState, call: CallState): (r: string)
    ensures r == "Connected" <==> connection == Connected && call == CallConnected
    ensures r == "Waiting for agent..." <==> connection == Connected && call != CallConnected
    ensures r == "Connecting..." <==> connection == Connecting
    ensures r == "Reconnecting..." <==> connection == Reconnecting
    ensures r == "Connection Failed" <==> connection == ConnectionFailed
    ensures r == "Disconnected" <==> connection == Disconnected
  {
    match connection
    case Connecting => "Connecting..."
    case Connected => if call == CallConnected then "Connected" else "Waiting for agent..."
    case Reconnecting => "Reconnecting..."
    case ConnectionFailed => "Connection Failed"
    case _ => "Disconnected"
  }

  const Green := "#4CAF50"
  const Orange := "#FF9800"
  const Red := "#F44336"
  const Grey := "#9E9E9E"

  /** `getConnectionStatusColor`. */
  function StatusColor(connection: ConnectionState): (r: string)
    ensures r == Green <==> connection == Connected
    ensures r == Orange <==> connection == Connecting || connection == Reconnecting
    ensures r == Red <==> connection == ConnectionFailed
    ensures r == Grey <==> connection == Disconnected
  {
    match connection
    case Connected => Green
    case Connecting => Orange
    case Reconnecting => Orange
    case ConnectionFailed => Red
    case _ => Grey
  }
}
