/**
 * The single-row tuner: one timeline of 150 minutes with the first half capped at a fixed
 * 75 minutes, a multiplicative zoom (0.25x to 8x) that sets pixels per second and tick
 * density, the playhead and the bookmark store.
 */
module AppTuner {
  import opened Wrappers
  import opened Text
  import opened TimeBase
  import opened Labels
  import opened Seek
  import opened Bookmarks
  import opened Notes
  import opened Ticks

  const MaxSec := 9000
  const BasePxPerSec := 3.0

  /** ZOOM_LEVELS: each level twice the one before. */
  const ZoomLevels: seq<real> := [0.25, 0.5, 1.0, 2.0, 4.0, 8.0]

  /** Array.prototype.indexOf: the first index holding `x`, or -1. */
  function IndexOf(xs: seq<real>, x: real): (i: int)
    ensures -1 <= i < |xs|
    ensures i >= 0 ==> xs[i] == x && forall j :: 0 <= j < i ==> xs[j] != x
    ensures i == -1 <==> x !in xs
  {
    if xs == [] then -1
    else if xs[0] == x then 0
    else var k := IndexOf(xs[1..], x); if k == -1 then -1 else k + 1
  }

  /** zoomIn: the level after the current one in the list, unless it is the last. */
  function ZoomInLevel(level: real): real
  {
    var i := IndexOf(ZoomLevels, level);
    if i < |ZoomLevels| - 1 then ZoomLevels[i + 1] else level
  }

  /** zoomOut: the level before the current one in the list, unless it is the first. */
  function ZoomOutLevel(level: real): real
  {
    var i := IndexOf(ZoomLevels, level);
    if i > 0 then ZoomLevels[i - 1] else level
  }

  /**
   * From a level of the list, zooming in doubles the level up to 8x and then stays; zooming
   * out halves it down to 0.25x and then stays; the result is again a level of the list, and
   * zooming out undoes zooming in below the top.
   */
  lemma ZoomSteps(level: real)
    requires level in ZoomLevels
    ensures ZoomInLevel(level) in ZoomLevels && ZoomOutLevel(level) in ZoomLevels
    ensures level < 8.0 ==> ZoomInLevel(level) == 2.0 * level
    ensures level == 8.0 ==> ZoomInLevel(level) == level
    ensures level > 0.25 ==> ZoomOutLevel(level) == level / 2.0
    ensures level == 0.25 ==> ZoomOutLevel(level) == level
    ensures level < 8.0 ==> ZoomOutLevel(ZoomInLevel(level)) == level
  {
    var i := LevelIndex(level);
    if i < 5 {
      assert IndexOf(ZoomLevels, ZoomLevels[i + 1]) == i + 1 by { LevelIndexOf(i + 1); }
    }
  }

  /** The position of a level in the list; the levels double from one to the next. */
  lemma LevelIndex(level: real) returns (i: int)
    requires level in ZoomLevels
    ensures 0 <= i < |ZoomLevels| && ZoomLevels[i] == level && IndexOf(ZoomLevels, level) == i
    ensures i < 5 ==> ZoomLevels[i + 1] == 2.0 * level
    ensures i > 0 ==> ZoomLevels[i - 1] == level / 2.0
    ensures (i == 5 <==> level == 8.0) && (i == 0 <==> level == 0.25)
  {
    i := IndexOf(ZoomLevels, level);
    LevelIndexOf(i);
  }

  /** The levels of the list are distinct, so each is found at its own position. */
  lemma LevelIndexOf(i: int)
    requires 0 <= i < |ZoomLevels|
    ensures IndexOf(ZoomLevels, ZoomLevels[i]) == i
  {
    var k := IndexOf(ZoomLevels, ZoomLevels[i]);
    assert ZoomLevels[k] == ZoomLevels[i];
  }

  /** A level that is not in the list (it cannot arise) would zoom in to the smallest level. */
  lemma ZoomInFromUnknownLevel(level: real)
    requires level !in ZoomLevels
    ensures ZoomInLevel(level) == ZoomLevels[0]
  {
  }

  /** The tick interval and major-tick interval for a zoom level. */
  function Density(level: real): (d: (int, int))
    ensures d.0 > 0 && d.1 > 0 && d.1 % d.0 == 0
    ensures level <= 0.5 ==> d == (300, 900)
    ensures level >= 4.0 ==> d == (30, 300)
    ensures 0.5 < level < 4.0 ==> d == (60, 300)
  {
    if level <= 0.5 then (300, 900)
    else if level >= 4.0 then (30, 300)
    else if level >= 2.0 then (60, 300)
    else (60, 300)
  }

  /** The tick label: m' style when zoomed out, mm:00 style from 2x up, coloured by the four regions with the 4500 s cap. */
  function AppTickLabel(level: real, s: int): TickLabel
  {
    var zoomed := level >= 2.0;
    if s <= HalfLength then
      var minutes := s / 60;
      TickLabel(if zoomed then Pad2(minutes) + ":00" else IntToString(minutes) + "'", Gr)
    else if s <= DefaultFirstHalfMax then
      var extra := (s - HalfLength) / 60;
      TickLabel(if zoomed then "45+" + IntToString(extra) + ":00" else "45+" + IntToString(extra) + "'", Et1)
    else if s <= DefaultFirstHalfMax + HalfLength then
      var total := 45 + (s - DefaultFirstHalfMax) / 60;
      TickLabel(if zoomed then Pad2(total) + ":00" else IntToString(total) + "'", Pu)
    else
      var extra := (s - DefaultFirstHalfMax - HalfLength) / 60;
      TickLabel(if zoomed then "90+" + IntToString(extra) + ":00" else "90+" + IntToString(extra) + "'", Et2)
  }

  /** One tick: major on the major interval; labelled when major, or from 2x up on every whole minute. */
  function AppMark(level: real, s: int): Tick
  {
    var major := s % Density(level).1 == 0;
    Tick(s, major, if major || (level >= 2.0 && s % 60 == 0) then Some(AppTickLabel(level, s)) else None)
  }

  /** Every major tick is labelled, and from 2x up every whole-minute tick too; nothing else is. */
  lemma AppMarkLabelled(level: real, s: int)
    ensures AppMark(level, s).caption.Some? <==> s % Density(level).1 == 0 || (level >= 2.0 && s % 60 == 0)
    ensures AppMark(level, s).major ==> AppMark(level, s).caption.Some?
  {
  }

  /**
   * Zoomed in, a whole-minute tick reads as the clock text of its field time, and its colour
   * is the period that field time falls in.
   */
  lemma ZoomedTickIsClockText(level: real, s: int)
    requires level >= 2.0 && s >= 0 && s % 60 == 0
    ensures AppMark(level, s).caption == Some(AppTickLabel(level, s))
    ensures AppTickLabel(level, s).text == FormatTime(s, DefaultFirstHalfMax)
    ensures AppTickLabel(level, s).cls ==
      match PeriodOf(s, DefaultFirstHalfMax)
      case RegularFirst => Gr
      case StoppageFirst => Et1
      case RegularSecond => Pu
      case StoppageSecond => Et2
  {
    var t := s;
    match PeriodOf(t, DefaultFirstHalfMax)
    case RegularFirst =>
      assert JsRem(t, 60) == 0;
      assert Pad2(0) == "00";
    case StoppageFirst =>
      assert (t - HalfLength) % 60 == 0;
      assert Pad2(0) == "00";
    case RegularSecond =>
      assert (t - DefaultFirstHalfMax) % 60 == 0;
      assert Pad2(0) == "00";
    case StoppageSecond =>
      assert (t - DefaultFirstHalfMax - HalfLength) % 60 == 0;
      assert Pad2(0) == "00";
  }

  class Tuner {
    var start1: Option<int>
    var start2: Option<int>
    var zoomLevel: real
    var pxPerSec: real
    const playhead: Playhead
    const store: BookmarkStore

    ghost predicate Valid()
      reads this, playhead
    {
      playhead.Valid() && playhead.maxSec == MaxSec
      && zoomLevel in ZoomLevels && pxPerSec == BasePxPerSec * zoomLevel
    }

    /** The initial state: 1x zoom, the playhead at 0, the bookmarks read back from storage. */
    constructor (saved: seq<Bookmark>)
      ensures Valid() && fresh(playhead) && fresh(store)
      ensures zoomLevel == 1.0 && pxPerSec == BasePxPerSec && start1 == None && start2 == None
      ensures playhead.seek == 0 && !playhead.playing && store.items == saved
    {
      start1 := None;
      start2 := None;
      zoomLevel := 1.0;
      pxPerSec := BasePxPerSec;
      playhead := new Playhead(MaxSec, 0);
      store := new BookmarkStore(saved);
    }

    /** syncStarts: the kick-off times from the hour and minute fields. */
    method SyncStarts(t1h: int, t1m: int, t2h: int, t2m: int)
      requires Valid()
      modifies this
      ensures Valid() && start1 == Some(KickOff(t1h, t1m)) && start2 == Some(KickOff(t2h, t2m))
      ensures zoomLevel == old(zoomLevel)
    {
      start1 := Some(KickOff(t1h, t1m));
      start2 := Some(KickOff(t2h, t2m));
    }

    /** zoomIn: the next level of the list; pixels per second follow; the playhead does not move. */
    method ZoomIn()
      requires Valid()
      modifies this
      ensures Valid() && zoomLevel == ZoomInLevel(old(zoomLevel)) && pxPerSec == BasePxPerSec * zoomLevel
      ensures start1 == old(start1) && start2 == old(start2)
    {
      ZoomSteps(zoomLevel);
      var i := IndexOf(ZoomLevels, zoomLevel);
      if i < |ZoomLevels| - 1 {
        zoomLevel := ZoomLevels[i + 1];
        pxPerSec := BasePxPerSec * zoomLevel;
      }
    }

    /** zoomOut: the previous level of the list; the playhead does not move. */
    method ZoomOut()
      requires Valid()
      modifies this
      ensures Valid() && zoomLevel == ZoomOutLevel(old(zoomLevel)) && pxPerSec == BasePxPerSec * zoomLevel
      ensures start1 == old(start1) && start2 == old(start2)
    {
      ZoomSteps(zoomLevel);
      var i := IndexOf(ZoomLevels, zoomLevel);
      if i > 0 {
        zoomLevel := ZoomLevels[i - 1];
        pxPerSec := BasePxPerSec * zoomLevel;
      }
    }

    /** resetZoom (the 0 key): back to 1x. */
    method ResetZoom()
      requires Valid()
      modifies this
      ensures Valid() && zoomLevel == 1.0 && pxPerSec == BasePxPerSec
      ensures start1 == old(start1) && start2 == old(start2)
    {
      zoomLevel := 1.0;
      pxPerSec := BasePxPerSec * zoomLevel;
    }

    /** goToLiveTime with the fixed 4500 s cap. */
    method GoToLiveTime(nowOfDay: int, now: int)
      requires Valid()
      modifies playhead
      ensures Valid() && playhead.playing && playhead.startInstant == Some(now)
      ensures playhead.seek == Clamp(RealToField(nowOfDay, start1, start2, DefaultFirstHalfMax), 0, MaxSec)
      ensures playhead.startField == playhead.seek
    {
      playhead.GoLive(RealToField(nowOfDay, start1, start2, DefaultFirstHalfMax), now);
    }

    /** The wheel handler: stop autoplay, step in the wheel's direction, stay in [0, 9000]. */
    method Wheel(deltaX: real, deltaY: real, shift: bool)
      requires Valid()
      modifies playhead
      ensures Valid() && !playhead.playing && 0 <= playhead.seek <= MaxSec
      ensures playhead.seek == Clamp(old(playhead.seek) + WheelDirection(deltaX, deltaY) * StepSeconds(shift), 0, MaxSec)
    {
      playhead.Nudge(WheelDirection(deltaX, deltaY) * StepSeconds(shift));
    }

    /** ArrowLeft / ArrowRight: stop autoplay, step, stay in [0, 9000]. */
    method Arrow(forward: bool, shift: bool)
      requires Valid()
      modifies playhead
      ensures Valid() && !playhead.playing && 0 <= playhead.seek <= MaxSec
      ensures playhead.seek == Clamp(old(playhead.seek) + (if forward then StepSeconds(shift) else -StepSeconds(shift)), 0, MaxSec)
    {
      playhead.Nudge(if forward then StepSeconds(shift) else -StepSeconds(shift));
    }

    /** The space bar: start autoplay from the playhead, or stop it. */
    method Space(now: int)
      requires Valid()
      modifies playhead
      ensures Valid() && playhead.playing == !old(playhead.playing) && playhead.seek == old(playhead.seek)
      ensures !old(playhead.playing) ==> playhead.startInstant == Some(now) && playhead.startField == old(playhead.seek)
    {
      playhead.Toggle(now);
    }

    /** Pressing on the timeline to drag it stops autoplay. */
    method PointerDown()
      requires Valid()
      modifies playhead
      ensures Valid() && !playhead.playing && playhead.seek == old(playhead.seek)
    {
      playhead.Stop();
    }

    /** The seek sheet's Go button: minutes and seconds, kept on the timeline. */
    method SheetGo(minutes: int, seconds: int)
      requires Valid()
      modifies playhead
      ensures Valid() && !playhead.playing && playhead.seek == Clamp(minutes * 60 + seconds, 0, MaxSec)
    {
      playhead.SeekTo(Clamp(minutes * 60 + seconds, 0, MaxSec));
    }

    /** The quick extra-time buttons as written (3000, 7500, 7800): the position is assigned, autoplay keeps running. */
    method QuickJumpAsWritten(t: int)
      requires Valid()
      modifies playhead
      ensures Valid() && playhead.seek == t && playhead.playing == old(playhead.playing)
      ensures playhead.startInstant == old(playhead.startInstant) && playhead.startField == old(playhead.startField)
    {
      playhead.Jump(t);
    }

    /** The quick extra-time buttons as every other explicit seek behaves: stop autoplay, then move. */
    method QuickJump(t: int)
      requires Valid()
      modifies playhead
      ensures Valid() && playhead.seek == t && !playhead.playing
    {
      playhead.SeekTo(t);
    }

    /** The bookmark sheet's Save button: the combined note as plain text, saved at the playhead. */
    method SaveBookmark(kind: Option<EventKind>, dropdown: string, rawNote: string,
                        nowMs: int, created: string, confirmOverwrite: bool)
      returns (outcome: SaveOutcome)
      requires Valid()
      modifies store
      ensures Valid()
      ensures kind.None? ==> outcome == NoKindSelected && store.items == old(store.items)
      ensures kind.Some? ==> store.items == AfterSave(old(store.items),
        NewBookmark(nowMs, playhead.seek, kind.value, Plain(CombinedText(dropdown, rawNote)), created), confirmOverwrite)
    {
      outcome := store.Save(playhead.seek, kind, Plain(CombinedText(dropdown, rawNote)), nowMs, created, confirmOverwrite);
    }

    /** buildTicks: one row from 0 to 9000 at the zoom level's tick interval. */
    method BuildTicks() returns (ticks: seq<Tick>)
      requires Valid()
      ensures |ticks| == TickCount(MaxSec, Density(zoomLevel).0)
      ensures forall i :: 0 <= i < |ticks| ==> ticks[i] == AppMark(zoomLevel, i * Density(zoomLevel).0)
    {
      var level := zoomLevel;
      ticks := LayOut(MaxSec, Density(level).0, s => AppMark(level, s));
    }
  }
}
