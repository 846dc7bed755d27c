/**
 * Field time (seconds of play shown on the timeline) against real time (seconds of the
 * day on the wall clock), given the kick-off times of the two halves and the length of
 * the first half on the field axis.
 */
module TimeBase {
  import opened Wrappers
  import opened Text

  const SecondsPerDay := 86400
  /** Nominal length of a half: 45 minutes. */
  const HalfLength := 2700
  /** First-half cap when no end of the first half has been recorded: 75 minutes. */
  const DefaultFirstHalfMax := 4500

  /** The first-half cap: the recorded end of the first half, or 75 minutes. */
  function FirstHalfMax(firstHalfEnd: Option<int>): int
  {
    if firstHalfEnd.Some? then firstHalfEnd.value else DefaultFirstHalfMax
  }

  /** Kick-off time of the day, from the hour and minute pickers. */
  function KickOff(hour: int, minute: int): int
  {
    hour * 3600 + minute * 60
  }

  /**
   * The wall-clock second that field second `f` falls on: up to the cap it is counted
   * from the first kick-off, beyond it from the second kick-off. Unknown until both
   * kick-offs are known.
   */
  function FieldToReal(f: int, start1: Option<int>, start2: Option<int>, cap: int): (r: Option<int>)
    ensures r.Some? <==> start1.Some? && start2.Some?
    ensures r.Some? && f <= cap ==> r.value - start1.value == f
    ensures r.Some? && f > cap ==> r.value - start2.value == f - cap
  {
    if start1.None? || start2.None? then None
    else if f <= cap then Some(start1.value + f)
    else Some(start2.value + (f - cap))
  }

  /**
   * The field second shown at wall-clock second `r`: 0 before the first kick-off or when
   * a kick-off is unknown, the elapsed first-half time (at most the cap) until the second
   * kick-off, then the cap plus the elapsed second-half time.
   */
  function RealToField(r: int, start1: Option<int>, start2: Option<int>, cap: int): (f: int)
    ensures cap >= 0 ==> f >= 0
    ensures start1.Some? && start2.Some? && start1.value <= r < start2.value ==> f <= cap
    ensures start1.None? || start2.None? ==> f == 0
    ensures start1.Some? && start2.Some? && r < start1.value && r < start2.value ==> f == 0
    ensures start1.Some? && start2.Some? && start1.value <= r < start2.value ==>
      f == (if r - start1.value < cap then r - start1.value else cap)
    ensures start1.Some? && start2.Some? && r >= start2.value ==> f == cap + (r - start2.value)
  {
    if start1.None? || start2.None? then 0
    else if r >= start1.value && r < start2.value then
      (if r - start1.value < cap then r - start1.value else cap)
    else if r >= start2.value then cap + (r - start2.value)
    else 0
  }

  /** Later field time never maps to an earlier wall-clock time. */
  ghost predicate NonDecreasing(start1: int, start2: int, cap: int)
  {
    forall f1, f2 :: f1 <= f2 ==>
      FieldToReal(f1, Some(start1), Some(start2), cap).value <= FieldToReal(f2, Some(start1), Some(start2), cap).value
  }

  /** Field-to-real is monotone exactly when the second half does not kick off before the first-half cap runs out (up to one second). */
  lemma NonDecreasingIff(start1: int, start2: int, cap: int)
    ensures NonDecreasing(start1, start2, cap) <==> start1 + cap <= start2 + 1
  {
    if start1 + cap > start2 + 1 {
      assert FieldToReal(cap, Some(start1), Some(start2), cap).value > FieldToReal(cap + 1, Some(start1), Some(start2), cap).value;
    } else {
      forall f1, f2 | f1 <= f2
        ensures FieldToReal(f1, Some(start1), Some(start2), cap).value <= FieldToReal(f2, Some(start1), Some(start2), cap).value
      {
      }
    }
  }

  /** Every second-half field time survives field -> real -> field, whatever the kick-offs. */
  lemma RoundTripSecondHalf(f: int, start1: int, start2: int, cap: int)
    requires f > cap
    ensures RealToField(FieldToReal(f, Some(start1), Some(start2), cap).value, Some(start1), Some(start2), cap) == f
  {
  }

  /** First-half field times 0..cap all survive the round trip exactly when the second kick-off is at least a cap after the first. */
  lemma RoundTripFirstHalfIff(start1: int, start2: int, cap: int)
    requires cap >= 0
    ensures (forall f :: 0 <= f <= cap ==>
               RealToField(FieldToReal(f, Some(start1), Some(start2), cap).value, Some(start1), Some(start2), cap) == f)
            <==> start1 + cap <= start2
  {
    if start1 + cap > start2 {
      var r := FieldToReal(cap, Some(start1), Some(start2), cap).value;
      assert RealToField(r, Some(start1), Some(start2), cap) == cap + (start1 + cap - start2);
    }
  }

  /** Wall-clock seconds inside a half map to a field time that maps back to them. */
  lemma RealRoundTrip(r: int, start1: int, start2: int, cap: int)
    requires (start1 <= r <= start1 + cap && r < start2) || r > start2
    ensures FieldToReal(RealToField(r, Some(start1), Some(start2), cap), Some(start1), Some(start2), cap) == Some(r)
  {
  }

  /** Seconds of the day, counted as the source does with two JavaScript remainders. */
  function DayOffset(sec: int): (n: int)
    ensures 0 <= n < SecondsPerDay && n == sec % SecondsPerDay
  {
    DoubleRemainder(sec);
    JsRem(JsRem(sec, SecondsPerDay) + SecondsPerDay, SecondsPerDay)
  }

  /** ((sec % 86400) + 86400) % 86400 with JavaScript's remainder is the mathematical modulus. */
  lemma DoubleRemainder(sec: int)
    ensures JsRem(JsRem(sec, SecondsPerDay) + SecondsPerDay, SecondsPerDay) == sec % SecondsPerDay
  {
    var q := JsRem(sec, SecondsPerDay);
    if sec < 0 {
      var k := (-sec) / SecondsPerDay;
      assert -sec == SecondsPerDay * k + (-sec) % SecondsPerDay;
      assert sec == SecondsPerDay * (-k - 1) + (q + SecondsPerDay);
      if q == 0 {
        assert sec == SecondsPerDay * (-k);
      }
    }
  }

  /** The wall clock as HH:MM for any second count, wrapped into one day. */
  function SecToHM(sec: int): string
  {
    var n := DayOffset(sec);
    Pad2(n / 3600) + ":" + Pad2(JsRem(n, 3600) / 60)
  }

  /** HH:MM names the hour (0..23) and minute (0..59) in which the second falls. */
  lemma SecToHMReadsClock(sec: int)
    ensures var r := SecToHM(sec);
      |r| == 5 && r[2] == ':' && AllDigits(r[..2], 10) && AllDigits(r[3..], 10)
      && Value(r[..2], 10) < 24 && Value(r[3..], 10) < 60
      && Value(r[..2], 10) * 3600 + Value(r[3..], 10) * 60 <= sec % SecondsPerDay
      && sec % SecondsPerDay < Value(r[..2], 10) * 3600 + Value(r[3..], 10) * 60 + 60
  {
    var n := DayOffset(sec);
    var h := n / 3600;
    var m := (n % 3600) / 60;
    Pad2Digits(h);
    Pad2Digits(m);
    var r := SecToHM(sec);
    assert r == Pad2(h) + ":" + Pad2(m);
    assert r[..2] == Pad2(h);
    assert r[3..] == Pad2(m);
  }

  /** A full day later the clock reads the same. */
  lemma SecToHMPeriodic(sec: int)
    ensures SecToHM(sec + SecondsPerDay) == SecToHM(sec)
  {
    assert (sec + SecondsPerDay) % SecondsPerDay == sec % SecondsPerDay;
  }
}
