/**
 * The pure helpers of the running-timer screen (src/components/TimerScreen.tsx):
 * the phase caption, the full length of the current phase (the divisor of the
 * progress ring) and the m:ss clock text.
 */
module TimerScreen {
  import opened Wrappers
  import opened Decimal
  import opened TimerTypes

  /** The caption shown under the clock. */
  function PhaseLabel(p: Phase): string {
    match p
    case Preparation => "Подготовка"
    case Work => "Работа"
    case Rest => "Отдых"
    case SetRest => "Отдых между сетами"
    case Completed => ""
  }

  /** Only the terminal phase has an empty caption, and no two phases share one. */
  lemma PhaseLabelDistinguishes(p: Phase, q: Phase)
    ensures PhaseLabel(p) == "" <==> p == Completed
    ensures PhaseLabel(p) == PhaseLabel(q) ==> p == q
  {
  }

  /** The full length of phase `p`; `Completed` answers 1 so that it can divide. */
  function TotalTime(s: Settings, p: Phase): int {
    match p
    case Preparation => s.preparation
    case Work => s.work
    case Rest => s.rest
    case SetRest => s.setRest
    case Completed => 1
  }

  /**
   * Each running phase is as long as its own setting, and the divisor is
   * positive in every phase whenever the four durations are.
   */
  lemma TotalTimeIsPhaseSetting(s: Settings, p: Phase)
    ensures p == Preparation ==> TotalTime(s, p) == s.preparation
    ensures p == Work ==> TotalTime(s, p) == s.work
    ensures p == Rest ==> TotalTime(s, p) == s.rest
    ensures p == SetRest ==> TotalTime(s, p) == s.setRest
    ensures p == Completed ==> TotalTime(s, p) == 1
    ensures s.preparation >= 1 && s.work >= 1 && s.rest >= 1 && s.setRest >= 1 ==> TotalTime(s, p) >= 1
  {
  }

  /** `padStart(width, fill)`: `s` preceded by as many `fill` characters as it takes to reach `width`. */
  function PadStart(s: string, width: nat, fill: char): (r: string)
    ensures |r| == if |s| >= width then |s| else width
    ensures r[|r| - |s|..] == s
    ensures forall i :: 0 <= i < |r| - |s| ==> r[i] == fill
  {
    if |s| >= width then s else seq(width - |s|, _ => fill) + s
  }

  /** The clock text: whole minutes, a colon, and the seconds as exactly two digits. */
  function FormatTime(seconds: nat): string {
    NatToString(seconds / 60) + ":" + PadStart(NatToString(seconds % 60), 2, '0')
  }

  /** Reads an m:ss clock text back into seconds; `None` for anything FormatTime cannot produce. */
  function ParseClock(text: string): Option<nat> {
    if |text| >= 4 && text[|text| - 3] == ':' then
      match (ParseNat(text[..|text| - 3]), ParseNat(text[|text| - 2..]))
      case (Some(m), Some(sec)) => if sec < 60 then Some(m * 60 + sec) else None
      case _ => None
    else
      None
  }

  /** The two-digit seconds field of a value below 100 reads back as that value. */
  lemma PaddedSecondsValue(x: nat)
    requires x < 100
    ensures |PadStart(NatToString(x), 2, '0')| == 2
    ensures ParseNat(PadStart(NatToString(x), 2, '0')) == Some(x)
  {
    var digits := NatToString(x);
    ParseNatOfNatToString(x);
    if x < 10 {
      assert PadStart(digits, 2, '0') == "0" + digits;
      DigitsValueLeadingZero(digits);
    } else {
      assert |digits| != 1;
    }
  }

  /** A minutes field, a colon and a two-character seconds field can be taken apart again. */
  lemma SplitClockText(mins: string, secs: string, m: nat, sec: nat)
    requires |secs| == 2 && ParseNat(mins) == Some(m) && ParseNat(secs) == Some(sec)
    ensures var text := mins + ":" + secs;
      && |text| >= 4
      && text[|text| - 3] == ':'
      && ParseNat(text[..|text| - 3]) == Some(m)
      && |text[|text| - 2..]| == 2
      && ParseNat(text[|text| - 2..]) == Some(sec)
  {
    var text := mins + ":" + secs;
    assert text[..|text| - 3] == mins;
    assert text[|text| - 2..] == secs;
  }

  /**
   * The clock text splits into a minutes field holding seconds div 60, a colon,
   * and a seconds field of exactly two digits holding seconds mod 60, which is
   * below 60.
   */
  lemma FormatTimeFields(seconds: nat)
    ensures var text := FormatTime(seconds);
      && |text| >= 4
      && text[|text| - 3] == ':'
      && ParseNat(text[..|text| - 3]) == Some(seconds / 60)
      && |text[|text| - 2..]| == 2
      && ParseNat(text[|text| - 2..]) == Some(seconds % 60)
      && seconds % 60 < 60
  {
    var m, sec := seconds / 60, seconds % 60;
    var mins, secs := NatToString(m), PadStart(NatToString(sec), 2, '0');
    PaddedSecondsValue(sec);
    ParseNatOfNatToString(m);
    SplitClockText(mins, secs, m, sec);
    assert FormatTime(seconds) == mins + ":" + secs;
  }

  /** A minutes field reading `seconds / 60`, a colon and a seconds field reading `seconds % 60` read back as `seconds`. */
  lemma ClockFieldsParse(mins: string, secs: string, seconds: nat)
    requires |secs| == 2 && ParseNat(mins) == Some(seconds / 60) && ParseNat(secs) == Some(seconds % 60)
    ensures ParseClock(mins + ":" + secs) == Some(seconds)
  {
    SplitClockText(mins, secs, seconds / 60, seconds % 60);
    MinutesAndSeconds(seconds);
  }

  /** Round trip: reading the clock text as minutes * 60 + seconds gives the input back. */
  lemma ParseClockOfFormatTime(seconds: nat)
    ensures ParseClock(FormatTime(seconds)) == Some(seconds)
  {
    var mins, secs := NatToString(seconds / 60), PadStart(NatToString(seconds % 60), 2, '0');
    PaddedSecondsValue(seconds % 60);
    ParseNatOfNatToString(seconds / 60);
    ClockFieldsParse(mins, secs, seconds);
    assert FormatTime(seconds) == mins + ":" + secs;
  }

  /** Whole minutes and the remaining seconds make up the duration. */
  lemma MinutesAndSeconds(seconds: nat)
    ensures (seconds / 60) * 60 + seconds % 60 == seconds
  {
  }

  /** Two different durations never show the same clock text. */
  lemma FormatTimeInjective(a: nat, b: nat)
    requires FormatTime(a) == FormatTime(b)
    ensures a == b
  {
    ParseClockOfFormatTime(a);
    ParseClockOfFormatTime(b);
  }
}
