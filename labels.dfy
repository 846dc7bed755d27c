/**
 * The match-clock text of a field time, shared by the live pill, the bookmark list and the
 * report: mm:ss in regular first-half time, 45+m:ss in first-half stoppage time, mm:ss from
 * 45 upward in the second half, 90+m:ss in second-half stoppage time.
 */
module Labels {
  import opened Wrappers
  import opened Text
  import opened TimeBase

  /** Field time as mm:ss, minutes not capped. */
  function FmtMMSS(s: int): string
  {
    Pad2(s / 60) + ":" + Pad2(JsRem(s, 60))
  }

  /** The four periods of the clock; they are also the pill's colour classes (h1, et1, h2, et2). */
  datatype Period = RegularFirst | StoppageFirst | RegularSecond | StoppageSecond

  /** Which period field time `t` falls in, given the first-half cap. */
  function PeriodOf(t: int, cap: int): Period
  {
    if t <= HalfLength then RegularFirst
    else if t <= cap then StoppageFirst
    else if t <= cap + HalfLength then RegularSecond
    else StoppageSecond
  }

  /** The clock text of field time `t` (all offsets below are positive, so `%` is the JavaScript one). */
  function FormatTime(t: int, cap: int): string
  {
    match PeriodOf(t, cap)
    case RegularFirst => FmtMMSS(t)
    case StoppageFirst => "45+" + IntToString((t - HalfLength) / 60) + ":" + Pad2((t - HalfLength) % 60)
    case RegularSecond => Pad2(45 + (t - cap) / 60) + ":" + Pad2((t - cap) % 60)
    case StoppageSecond => "90+" + IntToString((t - cap - HalfLength) / 60) + ":" + Pad2((t - cap - HalfLength) % 60)
  }

  /** Reads "m:s" with both parts non-empty decimal numerals. */
  function MinutesSeconds(s: string): Option<(nat, nat)>
  {
    match SplitAt(s, ':')
    case None => None
    case Some((a, b)) =>
      if a != [] && b != [] && AllDigits(a, 10) && AllDigits(b, 10) then Some((Value(a, 10), Value(b, 10))) else None
  }

  /** How a reader turns a clock text back into a field time. */
  function LabelToTime(text: string, cap: int): Option<int>
  {
    var first := |text| >= 3 && text[..3] == "45+";
    var second := |text| >= 3 && text[..3] == "90+";
    match MinutesSeconds(if first || second then text[3..] else text)
    case None => None
    case Some((m, s)) =>
      var v := 60 * m + s;
      if first then Some(HalfLength + v)
      else if second then Some(cap + HalfLength + v)
      else if v <= HalfLength then Some(v)
      else Some(cap + v - HalfLength)
  }

  lemma MinutesSecondsOf(a: string, b: string)
    requires a != [] && b != [] && AllDigits(a, 10) && AllDigits(b, 10)
    ensures MinutesSeconds(a + ":" + b) == Some((Value(a, 10), Value(b, 10)))
  {
    SeparatorNotInDigits(a, ':');
    SplitAtJoin(a, ':', b);
  }

  /** Every non-negative field time can be read back from its text: distinct instants never share a text. */
  lemma LabelRoundTrip(t: int, cap: int)
    requires t >= 0
    ensures LabelToTime(FormatTime(t, cap), cap) == Some(t)
  {
    match PeriodOf(t, cap)
    case RegularFirst => RegularFirstRoundTrip(t, cap);
    case StoppageFirst => StoppageFirstRoundTrip(t, cap);
    case RegularSecond => RegularSecondRoundTrip(t, cap);
    case StoppageSecond => StoppageSecondRoundTrip(t, cap);
  }

  lemma RegularFirstRoundTrip(t: int, cap: int)
    requires 0 <= t <= HalfLength
    ensures LabelToTime(FormatTime(t, cap), cap) == Some(t)
  {
    PlainLabelRoundTrip(t, cap, t / 60, t % 60);
    assert FormatTime(t, cap) == Pad2(t / 60) + ":" + Pad2(t % 60);
  }

  lemma StoppageFirstRoundTrip(t: int, cap: int)
    requires HalfLength < t <= cap
    ensures LabelToTime(FormatTime(t, cap), cap) == Some(t)
  {
    var d := t - HalfLength;
    var m, s := d / 60, d % 60;
    MinutesOf(d);
    assert PeriodOf(t, cap) == StoppageFirst;
    var text := "45+" + IntToString(m) + ":" + Pad2(s);
    assert FormatTime(t, cap) == text;
    StoppageLabelRoundTrip(t, cap, m, s, "45+");
  }

  lemma RegularSecondRoundTrip(t: int, cap: int)
    requires HalfLength < t && cap < t <= cap + HalfLength
    ensures LabelToTime(FormatTime(t, cap), cap) == Some(t)
  {
    var d := t - cap;
    var m, s := 45 + d / 60, d % 60;
    SecondHalfMinutes(d);
    assert PeriodOf(t, cap) == RegularSecond;
    assert FormatTime(t, cap) == Pad2(m) + ":" + Pad2(s);
    PlainLabelRoundTrip(t, cap, m, s);
  }

  /** Whole minutes and leftover seconds of a non-negative offset. */
  lemma MinutesOf(d: int)
    requires d >= 0
    ensures 0 <= d % 60 < 60 && 0 <= d / 60 && d == 60 * (d / 60) + d % 60
  {
  }

  /** Minutes and seconds of a second-half offset of at most 45 minutes, counted from 45. */
  lemma SecondHalfMinutes(d: int)
    requires 0 < d <= HalfLength
    ensures 0 <= d % 60 < 60 && 45 <= 45 + d / 60 <= 90
    ensures 60 * (45 + d / 60) + d % 60 == d + HalfLength
  {
  }

  lemma StoppageSecondRoundTrip(t: int, cap: int)
    requires HalfLength < t && cap + HalfLength < t
    ensures LabelToTime(FormatTime(t, cap), cap) == Some(t)
  {
    var d := t - cap - HalfLength;
    var m, s := d / 60, d % 60;
    MinutesOf(d);
    assert PeriodOf(t, cap) == StoppageSecond;
    var text := "90+" + IntToString(m) + ":" + Pad2(s);
    assert FormatTime(t, cap) == text;
    StoppageLabelRoundTrip(t, cap, m, s, "90+");
  }

  /** A stoppage-time text reads back as its minutes and seconds past the start of stoppage time. */
  lemma StoppageLabelRoundTrip(t: int, cap: int, m: nat, s: nat, prefix: string)
    requires s < 60
    requires (prefix == "45+" && t == HalfLength + 60 * m + s) || (prefix == "90+" && t == cap + HalfLength + 60 * m + s)
    ensures LabelToTime(prefix + IntToString(m) + ":" + Pad2(s), cap) == Some(t)
  {
    Regroup(prefix, Digits(m), ":", Pad2(s));
    MinuteNumeralRoundTrip(m, s);
    StoppageTextReading(Digits(m) + ":" + Pad2(s), cap, m, s, t, prefix);
  }

  /** A two-digit mm:ss text reads back as 60 * mm + ss, past 45:00 shifted to the second half. */
  lemma PlainLabelRoundTrip(t: int, cap: int, m: nat, s: nat)
    requires m <= 90 && s < 60
    requires (60 * m + s <= HalfLength && t == 60 * m + s) || (60 * m + s > HalfLength && t == cap + 60 * m + s - HalfLength)
    ensures LabelToTime(Pad2(m) + ":" + Pad2(s), cap) == Some(t)
  {
    TwoDigitMinutesSeconds(m, s);
    PlainTextReading(Pad2(m) + ":" + Pad2(s), cap, m, s, t);
  }

  /** A text without a stoppage-time prefix reads as m:ss counted from kick-off, past 45:00 shifted to the second half. */
  lemma PlainTextReading(text: string, cap: int, m: nat, s: nat, t: int)
    requires |text| >= 3 && text[..3] != "45+" && text[..3] != "90+" && MinutesSeconds(text) == Some((m, s))
    requires (60 * m + s <= HalfLength && t == 60 * m + s) || (60 * m + s > HalfLength && t == cap + 60 * m + s - HalfLength)
    ensures LabelToTime(text, cap) == Some(t)
  {
  }

  /** A two-digit mm:ss text carries no stoppage-time prefix and reads back as (mm, ss). */
  lemma TwoDigitMinutesSeconds(m: int, s: int)
    requires 0 <= m <= 90 && 0 <= s < 60
    ensures var text := Pad2(m) + ":" + Pad2(s);
      |text| >= 3 && text[..3] != "45+" && text[..3] != "90+" && MinutesSeconds(text) == Some((m, s))
  {
    Pad2Digits(m);
    Pad2Digits(s);
    var text := Pad2(m) + ":" + Pad2(s);
    assert text[..3][2] == ':';
    MinutesSecondsOf(Pad2(m), Pad2(s));
  }

  /** m:ss with a bare minute numeral reads back as m minutes and s seconds. */
  lemma MinuteNumeralRoundTrip(m: nat, s: int)
    requires 0 <= s < 60
    ensures MinutesSeconds(Digits(m) + ":" + Pad2(s)) == Some((m, s))
  {
    ValueOfDigits(m);
    Pad2Digits(s);
    MinutesSecondsOf(Digits(m), Pad2(s));
  }

  /** A stoppage-time prefix followed by m:ss reads as that many minutes and seconds past 45:00, or past 45 minutes after the cap. */
  lemma StoppageTextReading(tail: string, cap: int, m: nat, s: nat, t: int, prefix: string)
    requires MinutesSeconds(tail) == Some((m, s))
    requires (prefix == "45+" && t == HalfLength + 60 * m + s) || (prefix == "90+" && t == cap + HalfLength + 60 * m + s)
    ensures LabelToTime(prefix + tail, cap) == Some(t)
  {
    var text := prefix + tail;
    assert text[..3] == prefix;
    assert text[3..] == tail;
  }

  lemma Regroup(a: string, b: string, c: string, d: string)
    ensures a + b + c + d == a + (b + c + d)
  {
  }

  /** Exactly 45 minutes is still regular time; one second later stoppage time starts. */
  lemma HalfTimeBoundary(cap: int)
    ensures FormatTime(2700, cap) == "45:00"
    ensures cap > 2700 ==> FormatTime(2701, cap) == "45+0:01"
  {
    assert Digits(45) == "45";
  }

  /** Exactly 45 minutes after the cap reads 90:00; one second later second-half stoppage time starts. */
  lemma FullTimeBoundary(cap: int)
    requires cap > 0
    ensures FormatTime(cap + 2700, cap) == "90:00"
    ensures FormatTime(cap + 2701, cap) == "90+0:01"
  {
    FullTimeText(cap, cap + 2700);
    StoppageSecondStartText(cap, cap + 2701);
  }

  lemma FullTimeText(cap: int, t: int)
    requires cap > 0 && t == cap + HalfLength
    ensures FormatTime(t, cap) == "90:00"
  {
    assert PeriodOf(t, cap) == RegularSecond;
    assert (t - cap) / 60 == 45 && (t - cap) % 60 == 0;
    assert Digits(90) == "90";
    assert Pad2(0) == "00";
  }

  lemma StoppageSecondStartText(cap: int, t: int)
    requires cap > 0 && t == cap + HalfLength + 1
    ensures FormatTime(t, cap) == "90+0:01"
  {
    assert PeriodOf(t, cap) == StoppageSecond;
    assert (t - cap - HalfLength) / 60 == 0 && (t - cap - HalfLength) % 60 == 1;
    assert IntToString(0) == "0";
    assert Pad2(1) == "01";
  }

  /** The quick extra-time buttons land on 45+5, 90+5 and 90+10 when the first-half cap is 75 minutes. */
  lemma QuickJumpLabels()
    ensures FormatTime(3000, DefaultFirstHalfMax) == "45+5:00"
    ensures FormatTime(7500, DefaultFirstHalfMax) == "90+5:00"
    ensures FormatTime(7800, DefaultFirstHalfMax) == "90+10:00"
  {
    assert Digits(10) == "10";
  }
}
