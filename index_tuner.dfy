/**
 * The plain tuner: a 90-minute timeline at a fixed 3 px per second, two fixed 45-minute
 * halves, no autoplay and no zoom; the playhead is moved by dragging, the wheel, the arrow
 * keys, the seek sheet and the bookmark list.
 */
module IndexTuner {
  import opened Wrappers
  import opened Text
  import opened TimeBase
  import opened Labels
  import opened Seek
  import opened Bookmarks
  import opened Ticks

  /** MAX_SEC: 90 minutes. */
  const MaxSec := 5400
  const TickStep := 10

  /**
   * realToFieldSec: 0 before the first kick-off or while a kick-off is unknown, the elapsed
   * first-half time for 45 minutes, then 45:00 until the second kick-off, then 45:00 plus the
   * elapsed second-half time for 45 minutes, then 90:00.
   */
  function IndexRealToField(r: int, start1: Option<int>, start2: Option<int>): (f: int)
    ensures 0 <= f <= MaxSec
    ensures start1.None? || start2.None? ==> f == 0
    ensures start1.Some? && start2.Some? && start1.value <= r <= start1.value + HalfLength ==> f == r - start1.value
    ensures start1.Some? && start2.Some? && start1.value + HalfLength < r && start2.value <= r <= start2.value + HalfLength
      ==> f == HalfLength + (r - start2.value)
    ensures start1.Some? && start2.Some? && r < start1.value ==> f == 0
    ensures start1.Some? && start2.Some? && start1.value + HalfLength < r < start2.value ==> f == HalfLength
    ensures start1.Some? && start2.Some? && start1.value + HalfLength < r && start2.value + HalfLength < r ==> f == MaxSec
  {
    if start1.None? || start2.None? then 0
    else
      var end1 := start1.value + HalfLength;
      var end2 := start2.value + HalfLength;
      if r < start1.value then 0
      else if r <= end1 then r - start1.value
      else if r < start2.value then HalfLength
      else if r <= end2 then HalfLength + (r - start2.value)
      else MaxSec
  }

  /**
   * Every field time of the timeline survives field -> real -> field exactly when the second
   * kick-off is at least 45 minutes after the first.
   */
  lemma IndexRoundTripIff(start1: int, start2: int)
    ensures (forall f :: 0 <= f <= MaxSec ==>
               IndexRealToField(FieldToReal(f, Some(start1), Some(start2), HalfLength).value, Some(start1), Some(start2)) == f)
            <==> start1 + HalfLength <= start2
  {
    if start1 + HalfLength > start2 {
      var r := FieldToReal(HalfLength + 1, Some(start1), Some(start2), HalfLength).value;
      assert IndexRealToField(r, Some(start1), Some(start2)) <= HalfLength;
    }
  }

  /** Wall-clock seconds inside either half map to a field time that maps back to them. */
  lemma IndexRealRoundTrip(r: int, start1: int, start2: int)
    requires start1 + HalfLength <= start2
    requires start1 <= r <= start1 + HalfLength || start2 < r <= start2 + HalfLength
    ensures FieldToReal(IndexRealToField(r, Some(start1), Some(start2)), Some(start1), Some(start2), HalfLength) == Some(r)
  {
  }

  /** With the kick-offs in order, a later wall-clock second never shows an earlier field time. */
  lemma IndexRealToFieldMonotone(r1: int, r2: int, start1: int, start2: int)
    requires start1 + HalfLength <= start2 && r1 <= r2
    ensures IndexRealToField(r1, Some(start1), Some(start2)) <= IndexRealToField(r2, Some(start1), Some(start2))
  {
  }

  /** The half-indicator pill as written: first half strictly before 45:00. */
  predicate PillFirstHalfAsWritten(seek: int)
  {
    seek < HalfLength
  }

  /** The half-indicator pill as intended: first half up to and including 45:00, as the conversion counts it. */
  predicate PillFirstHalf(seek: int)
  {
    seek <= HalfLength
  }

  /**
   * With kick-offs more than 45 minutes apart, the corrected pill shows the first half exactly
   * when the wall-clock time shown beside it lies in the first 45 minutes after the first kick-off.
   */
  lemma PillMatchesClock(seek: int, start1: int, start2: int)
    requires start1 + HalfLength < start2
    ensures PillFirstHalf(seek) <==> FieldToReal(seek, Some(start1), Some(start2), HalfLength).value <= start1 + HalfLength
  {
  }

  /** At exactly 45:00 the pill as written shows the second half while the clock beside it shows the end of the first. */
  lemma PillAsWrittenAtHalfTime(start1: int, start2: int)
    requires start1 + HalfLength < start2
    ensures !PillFirstHalfAsWritten(HalfLength)
    ensures FieldToReal(HalfLength, Some(start1), Some(start2), HalfLength) == Some(start1 + HalfLength)
    ensures PillFirstHalf(HalfLength)
  {
  }

  /** One tick: every ten seconds, major and labelled mm:00 on each whole minute, coloured by the half. */
  function IndexMark(s: int): Tick
  {
    var major := s % 60 == 0;
    var m := s / 60;
    Tick(s, major, if major then Some(TickLabel(Pad2(m) + ":00", if m < 45 then Gr else if m == 45 then Bd else Pu)) else None)
  }

  /**
   * Each whole-minute tick reads the same text the pill shows at that second, and is green
   * before 45:00, the boundary colour at 45:00 and purple after it.
   */
  lemma IndexMarkReadsClock(s: int)
    requires 0 <= s && s % 60 == 0
    ensures IndexMark(s).major && IndexMark(s).caption.Some?
    ensures IndexMark(s).caption.value.text == FmtMMSS(s)
    ensures IndexMark(s).caption.value.cls == Gr <==> s < HalfLength
    ensures IndexMark(s).caption.value.cls == Bd <==> s == HalfLength
    ensures IndexMark(s).caption.value.cls == Pu <==> s > HalfLength
  {
    assert JsRem(s, 60) == 0;
    assert Pad2(0) == "00";
  }

  /** A tick between whole minutes is minor and has no label. */
  lemma IndexMarkMinor(s: int)
    requires s % 60 != 0
    ensures !IndexMark(s).major && IndexMark(s).caption.None?
  {
  }

  class Tuner {
    var start1: Option<int>
    var start2: Option<int>
    const playhead: Playhead
    const store: BookmarkStore

    /** The playhead never plays: this tuner has no autoplay. */
    ghost predicate Valid()
      reads this, playhead
    {
      playhead.Valid() && playhead.maxSec == MaxSec && !playhead.playing
    }

    constructor (saved: seq<Bookmark>)
      ensures Valid() && fresh(playhead) && fresh(store)
      ensures start1 == None && start2 == None && playhead.seek == 0 && store.items == saved
    {
      start1 := None;
      start2 := None;
      playhead := new Playhead(MaxSec, 0);
      store := new BookmarkStore(saved);
    }

    /** syncStarts: the kick-off times from the hour and minute fields. */
    method SyncStarts(t1h: int, t1m: int, t2h: int, t2m: int)
      requires Valid()
      modifies this
      ensures Valid() && start1 == Some(KickOff(t1h, t1m)) && start2 == Some(KickOff(t2h, t2m))
    {
      start1 := Some(KickOff(t1h, t1m));
      start2 := Some(KickOff(t2h, t2m));
    }

    /** The wheel handler: step in the wheel's direction, stay in [0, 5400]. */
    method Wheel(deltaX: real, deltaY: real, shift: bool)
      requires Valid()
      modifies playhead
      ensures Valid() && 0 <= playhead.seek <= MaxSec
      ensures playhead.seek == Clamp(old(playhead.seek) + WheelDirection(deltaX, deltaY) * StepSeconds(shift), 0, MaxSec)
    {
      playhead.Nudge(WheelDirection(deltaX, deltaY) * StepSeconds(shift));
    }

    /** ArrowLeft / ArrowRight: step, stay in [0, 5400]. */
    method Arrow(forward: bool, shift: bool)
      requires Valid()
      modifies playhead
      ensures Valid() && 0 <= playhead.seek <= MaxSec
      ensures playhead.seek == Clamp(old(playhead.seek) + (if forward then StepSeconds(shift) else -StepSeconds(shift)), 0, MaxSec)
    {
      playhead.Nudge(if forward then StepSeconds(shift) else -StepSeconds(shift));
    }

    /** The seek sheet's Go button, also pressed by the 0, 45 and 90 quick buttons: kept on the timeline. */
    method SheetGo(minutes: int, seconds: int)
      requires Valid()
      modifies playhead
      ensures Valid() && playhead.seek == Clamp(minutes * 60 + seconds, 0, MaxSec)
    {
      playhead.Jump(Clamp(minutes * 60 + seconds, 0, MaxSec));
    }

    /** goToBookmark and a marker click: the bookmark's time, assigned as stored. */
    method GoToBookmark(b: Bookmark)
      requires Valid()
      modifies playhead
      ensures Valid() && playhead.seek == b.time
    {
      playhead.Jump(b.time);
    }

    /** The bookmark sheet's Save button: the typed note (trimmed when stored), saved at the playhead. */
    method SaveBookmark(kind: Option<EventKind>, rawNote: string, nowMs: int, created: string, confirmOverwrite: bool)
      returns (outcome: SaveOutcome)
      requires Valid()
      modifies store
      ensures Valid()
      ensures kind.None? ==> outcome == NoKindSelected && store.items == old(store.items)
      ensures kind.Some? ==> store.items == AfterSave(old(store.items),
        NewBookmark(nowMs, playhead.seek, kind.value, Plain(rawNote), created), confirmOverwrite)
    {
      outcome := store.Save(playhead.seek, kind, Plain(rawNote), nowMs, created, confirmOverwrite);
    }

    /** buildTicks: a tick every ten seconds from 0 to 5400, 541 of them. */
    method BuildTicks() returns (ticks: seq<Tick>)
      ensures |ticks| == 541
      ensures forall i :: 0 <= i < |ticks| ==> ticks[i] == IndexMark(i * TickStep)
    {
      ticks := LayOut(MaxSec, TickStep, IndexMark);
      TickCountUnique(MaxSec, TickStep, 541);
    }
  }
}
