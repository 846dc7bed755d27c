/**
 * The main tuner: two timeline rows (first half with its stoppage time, second half with
 * its stoppage time) split at the first-half cap, which is the recorded first-half end or
 * 75 minutes. Holds the kick-off times, the half ends, the zoom level, the playhead and the
 * bookmark store, and the handlers that change them.
 */
module MainTuner {
  import opened Wrappers
  import opened Text
  import opened TimeBase
  import opened Labels
  import opened Seek
  import opened Bookmarks
  import opened Notes
  import opened Ticks
  import opened Persist

  /** MAX_SEC: 150 minutes. */
  const MaxSec := 9000

  datatype ZoomLevel = ZoomLevel(name: string, tickInterval: int, majorTickInterval: int, pxPerSec: real)

  /** ZOOM_LEVELS: each step of zoomIn shows a longer stretch of the match. */
  const ZoomLevels: seq<ZoomLevel> := [
    ZoomLevel("1min", 60, 300, 3.0),
    ZoomLevel("5min", 300, 900, 1.5),
    ZoomLevel("10min", 600, 1800, 0.75)
  ]

  /** zoomIn: the next level, saturating at the last. */
  function ZoomInIndex(i: int): (j: int)
    ensures 0 <= i < |ZoomLevels| ==> 0 <= j < |ZoomLevels| && i <= j <= i + 1
    ensures 0 <= i < |ZoomLevels| - 1 ==> j == i + 1
    ensures i == |ZoomLevels| - 1 ==> j == i
  {
    if i < |ZoomLevels| - 1 then i + 1 else i
  }

  /** zoomOut: the previous level, saturating at the first. */
  function ZoomOutIndex(i: int): (j: int)
    ensures 0 <= i < |ZoomLevels| ==> 0 <= j < |ZoomLevels| && i - 1 <= j <= i
    ensures 0 < i ==> j == i - 1
    ensures i == 0 ==> j == 0
  {
    if i > 0 then i - 1 else i
  }

  /**
   * Zooming in moves to a level with fewer pixels per second and sparser ticks, and zooming
   * out undoes it.
   */
  lemma ZoomInCoarsens(i: int)
    requires 0 <= i < |ZoomLevels| - 1
    ensures ZoomLevels[ZoomInIndex(i)].pxPerSec < ZoomLevels[i].pxPerSec
    ensures ZoomLevels[ZoomInIndex(i)].tickInterval > ZoomLevels[i].tickInterval
    ensures ZoomOutIndex(ZoomInIndex(i)) == i
  {
  }

  /** Which timeline row shows field time `t` (0: first half, 1: second half) and how far along it. */
  function Placement(t: int, cap: int): (p: (nat, int))
    ensures p.0 == 0 <==> t <= cap
    ensures t >= 0 && p.0 == 0 ==> 0 <= p.1 <= cap
    ensures p.0 == 1 ==> p.1 > 0
  {
    if t <= cap then (0, t) else (1, t - cap)
  }

  /** A marker's row and offset tell its real time: the row's kick-off plus the offset. */
  lemma PlacementIsRealTime(t: int, start1: int, start2: int, cap: int)
    ensures var p := Placement(t, cap);
      FieldToReal(t, Some(start1), Some(start2), cap) == Some((if p.0 == 0 then start1 else start2) + p.1)
  {
  }

  /** The tick label of buildTicks at offset `s` of row `row`. */
  function MainTickLabel(row: nat, s: int): TickLabel
  {
    if row == 0 then
      if s <= HalfLength then TickLabel(IntToString(s / 60) + "'", Gr)
      else TickLabel("45+" + IntToString((s - HalfLength) / 60) + "'", Et1)
    else
      if s <= HalfLength then TickLabel(IntToString(45 + s / 60) + "'", Pu)
      else TickLabel("90+" + IntToString((s - HalfLength) / 60) + "'", Et2)
  }

  /** One tick of buildTicks: every tick is labelled; it is major on multiples of the major interval. */
  function MainMark(row: nat, zoom: ZoomLevel, s: int): Tick
    requires zoom.majorTickInterval > 0
  {
    Tick(s, s % zoom.majorTickInterval == 0, Some(MainTickLabel(row, s)))
  }

  /**
   * With the cap at or after 45:00, a tick's colour class is the period of the field time it
   * stands for: offset s of the first row is field time s, of the second row field time cap + s.
   */
  lemma MainTickClasses(s: int, cap: int)
    requires cap >= HalfLength && 0 < s <= cap
    ensures MainTickLabel(0, s).cls == Gr <==> PeriodOf(s, cap) == RegularFirst
    ensures MainTickLabel(0, s).cls == Et1 <==> PeriodOf(s, cap) == StoppageFirst
    ensures MainTickLabel(1, s).cls == Pu <==> PeriodOf(cap + s, cap) == RegularSecond
    ensures MainTickLabel(1, s).cls == Et2 <==> PeriodOf(cap + s, cap) == StoppageSecond
  {
  }

  class Tuner {
    var start1: Option<int>
    var start2: Option<int>
    var firstHalfEnd: Option<int>
    var secondHalfEnd: Option<int>
    var zoomIndex: int
    var pxPerSec: real
    const playhead: Playhead
    const store: BookmarkStore

    ghost predicate Valid()
      reads this, playhead
    {
      playhead.Valid() && playhead.maxSec == MaxSec
      && 0 <= zoomIndex < |ZoomLevels| && pxPerSec == ZoomLevels[zoomIndex].pxPerSec
    }

    /** getFirstHalfMaxSec. */
    function Cap(): (cap: int)
      reads this
      ensures firstHalfEnd.Some? ==> cap == firstHalfEnd.value
      ensures firstHalfEnd.None? ==> cap == DefaultFirstHalfMax
    {
      FirstHalfMax(firstHalfEnd)
    }

    /** The page's initial state, with the bookmarks read back from storage. */
    constructor (saved: seq<Bookmark>)
      ensures Valid() && fresh(playhead) && fresh(store)
      ensures start1 == None && start2 == None && firstHalfEnd == None && secondHalfEnd == None
      ensures zoomIndex == 0 && playhead.seek == 0 && !playhead.playing && store.items == saved
    {
      start1 := None;
      start2 := None;
      firstHalfEnd := None;
      secondHalfEnd := None;
      zoomIndex := 0;
      pxPerSec := 3.0;
      playhead := new Playhead(MaxSec, 0);
      store := new BookmarkStore(saved);
    }

    /** syncStarts: the kick-off times from the hour and minute fields. */
    method SyncStarts(t1h: int, t1m: int, t2h: int, t2m: int)
      requires Valid()
      modifies this
      ensures Valid() && start1 == Some(KickOff(t1h, t1m)) && start2 == Some(KickOff(t2h, t2m))
      ensures firstHalfEnd == old(firstHalfEnd) && secondHalfEnd == old(secondHalfEnd) && zoomIndex == old(zoomIndex)
    {
      start1 := Some(KickOff(t1h, t1m));
      start2 := Some(KickOff(t2h, t2m));
    }

    /** endFirstHalf: the first half ends at the playhead, which becomes the cap. */
    method EndFirstHalf()
      requires Valid()
      modifies this
      ensures Valid() && firstHalfEnd == Some(playhead.seek) && Cap() == playhead.seek
      ensures start1 == old(start1) && start2 == old(start2) && secondHalfEnd == old(secondHalfEnd) && zoomIndex == old(zoomIndex)
    {
      firstHalfEnd := Some(playhead.seek);
    }

    /** The end-first-half button: records the end only when none is recorded yet. */
    method ClickEndFirstHalf()
      requires Valid()
      modifies this
      ensures Valid()
      ensures old(firstHalfEnd).None? ==> firstHalfEnd == Some(playhead.seek)
      ensures old(firstHalfEnd).Some? ==> firstHalfEnd == old(firstHalfEnd)
      ensures start1 == old(start1) && start2 == old(start2) && secondHalfEnd == old(secondHalfEnd) && zoomIndex == old(zoomIndex)
    {
      if firstHalfEnd == None {
        EndFirstHalf();
      }
    }

    /** resetFirstHalf: when confirmed, forgets the first-half end, so the cap is 75 minutes again. */
    method ResetFirstHalf(confirmed: bool)
      requires Valid()
      modifies this
      ensures Valid()
      ensures confirmed ==> firstHalfEnd == None && Cap() == DefaultFirstHalfMax
      ensures !confirmed ==> firstHalfEnd == old(firstHalfEnd)
      ensures start1 == old(start1) && start2 == old(start2) && secondHalfEnd == old(secondHalfEnd) && zoomIndex == old(zoomIndex)
    {
      if confirmed {
        firstHalfEnd := None;
      }
    }

    /** endSecondHalf: the match ends at the playhead and autoplay stops; the first-half end is kept. */
    method EndSecondHalf()
      requires Valid()
      modifies this, playhead
      ensures Valid() && secondHalfEnd == Some(old(playhead.seek)) && !playhead.playing
      ensures playhead.seek == old(playhead.seek)
      ensures firstHalfEnd == old(firstHalfEnd) && start1 == old(start1) && start2 == old(start2) && zoomIndex == old(zoomIndex)
    {
      secondHalfEnd := Some(playhead.seek);
      if playhead.playing {
        playhead.Stop();
      }
    }

    /** The end-match button: records the end only when none is recorded yet. */
    method ClickEndSecondHalf()
      requires Valid()
      modifies this, playhead
      ensures Valid() && playhead.seek == old(playhead.seek) && firstHalfEnd == old(firstHalfEnd)
      ensures old(secondHalfEnd).None? ==> secondHalfEnd == Some(old(playhead.seek)) && !playhead.playing
      ensures old(secondHalfEnd).Some? ==> secondHalfEnd == old(secondHalfEnd) && playhead.playing == old(playhead.playing)
      ensures old(secondHalfEnd).Some? ==>
        playhead.startInstant == old(playhead.startInstant) && playhead.startField == old(playhead.startField)
      ensures start1 == old(start1) && start2 == old(start2) && zoomIndex == old(zoomIndex)
    {
      if secondHalfEnd == None {
        EndSecondHalf();
      }
    }

    /** resetSecondHalf: when confirmed, forgets the match end. */
    method ResetSecondHalf(confirmed: bool)
      requires Valid()
      modifies this
      ensures Valid()
      ensures secondHalfEnd == (if confirmed then None else old(secondHalfEnd))
      ensures firstHalfEnd == old(firstHalfEnd) && start1 == old(start1) && start2 == old(start2) && zoomIndex == old(zoomIndex)
    {
      if confirmed {
        secondHalfEnd := None;
      }
    }

    /** zoomIn: the next zoom level, if any, and its pixels per second; the playhead does not move. */
    method ZoomIn()
      requires Valid()
      modifies this
      ensures Valid() && zoomIndex == ZoomInIndex(old(zoomIndex)) && pxPerSec == ZoomLevels[zoomIndex].pxPerSec
      ensures firstHalfEnd == old(firstHalfEnd) && secondHalfEnd == old(secondHalfEnd) && start1 == old(start1) && start2 == old(start2)
    {
      if zoomIndex < |ZoomLevels| - 1 {
        zoomIndex := zoomIndex + 1;
        pxPerSec := ZoomLevels[zoomIndex].pxPerSec;
      }
    }

    /** zoomOut: the previous zoom level, if any; the playhead does not move. */
    method ZoomOut()
      requires Valid()
      modifies this
      ensures Valid() && zoomIndex == ZoomOutIndex(old(zoomIndex)) && pxPerSec == ZoomLevels[zoomIndex].pxPerSec
      ensures firstHalfEnd == old(firstHalfEnd) && secondHalfEnd == old(secondHalfEnd) && start1 == old(start1) && start2 == old(start2)
    {
      if zoomIndex > 0 {
        zoomIndex := zoomIndex - 1;
        pxPerSec := ZoomLevels[zoomIndex].pxPerSec;
      }
    }

    /** goToLiveTime: jump to the field time of the clock reading `nowOfDay`, kept on the timeline, and play from there. */
    method GoToLiveTime(nowOfDay: int, now: int)
      requires Valid()
      modifies playhead
      ensures Valid() && playhead.playing && playhead.startInstant == Some(now)
      ensures playhead.seek == Clamp(RealToField(nowOfDay, start1, start2, Cap()), 0, MaxSec)
      ensures playhead.startField == playhead.seek
      ensures 0 <= playhead.seek <= MaxSec
    {
      var live := RealToField(nowOfDay, start1, start2, Cap());
      playhead.GoLive(live, now);
    }

    /** The wheel handler: stop autoplay, step 5 s (30 s with Shift) in the wheel's direction, stay on the timeline. */
    method Wheel(deltaX: real, deltaY: real, shift: bool)
      requires Valid()
      modifies playhead
      ensures Valid() && !playhead.playing
      ensures playhead.seek == Clamp(old(playhead.seek) + WheelDirection(deltaX, deltaY) * StepSeconds(shift), 0, MaxSec)
    {
      playhead.Nudge(WheelDirection(deltaX, deltaY) * StepSeconds(shift));
    }

    /** ArrowLeft / ArrowRight: stop autoplay, step back or forward, stay on the timeline. */
    method Arrow(forward: bool, shift: bool)
      requires Valid()
      modifies playhead
      ensures Valid() && !playhead.playing
      ensures playhead.seek == Clamp(old(playhead.seek) + (if forward then StepSeconds(shift) else -StepSeconds(shift)), 0, MaxSec)
    {
      playhead.Nudge(if forward then StepSeconds(shift) else -StepSeconds(shift));
    }

    /** The space bar: pause when playing, play from here otherwise. */
    method Space(now: int)
      requires Valid()
      modifies playhead
      ensures Valid() && playhead.playing == !old(playhead.playing) && playhead.seek == old(playhead.seek)
      ensures !old(playhead.playing) ==> playhead.startInstant == Some(now) && playhead.startField == old(playhead.seek)
    {
      playhead.Toggle(now);
    }

    /** Pressing on the timeline to drag it stops autoplay. */
    method PointerDown()
      requires Valid()
      modifies playhead
      ensures Valid() && !playhead.playing && playhead.seek == old(playhead.seek)
    {
      playhead.Stop();
    }

    /** The seek sheet's Go button (also behind the 0', 45' and 90' buttons): minutes and seconds, kept on the timeline. */
    method SheetGo(minutes: int, seconds: int)
      requires Valid()
      modifies playhead
      ensures Valid() && !playhead.playing && playhead.seek == Clamp(minutes * 60 + seconds, 0, MaxSec)
      ensures 0 <= playhead.seek <= MaxSec
    {
      playhead.SeekTo(Clamp(minutes * 60 + seconds, 0, MaxSec));
    }

    /** The 45+5, 90+5 and 90+10 buttons as written: the position is assigned and autoplay keeps running. */
    method QuickJumpAsWritten(t: int)
      requires Valid()
      modifies playhead
      ensures Valid() && playhead.seek == t && playhead.playing == old(playhead.playing)
      ensures playhead.startInstant == old(playhead.startInstant) && playhead.startField == old(playhead.startField)
    {
      playhead.Jump(t);
    }

    /** The quick extra-time buttons as every other explicit seek behaves: stop autoplay, then move. */
    method QuickJump(t: int)
      requires Valid()
      modifies playhead
      ensures Valid() && playhead.seek == t && !playhead.playing
    {
      playhead.SeekTo(t);
    }

    /** goToBookmark: seekToTime on the bookmark's time, not clamped. */
    method GoToBookmark(b: Bookmark)
      requires Valid()
      modifies playhead
      ensures Valid() && playhead.seek == b.time && !playhead.playing
    {
      playhead.SeekTo(b.time);
    }

    /**
     * The bookmark sheet's Save button: the note combined from the team dropdown and the typed
     * note, saved at the playhead, overwriting a bookmark within five seconds when confirmed.
     */
    method SaveBookmark(kind: Option<EventKind>, dropdown: string, rawNote: string, teamColor: Option<string>,
                        nowMs: int, created: string, confirmOverwrite: bool)
      returns (outcome: SaveOutcome)
      requires Valid()
      modifies store
      ensures Valid()
      ensures kind.None? ==> outcome == NoKindSelected && store.items == old(store.items)
      ensures kind.Some? ==> store.items == AfterSave(old(store.items),
        NewBookmark(nowMs, playhead.seek, kind.value, CombinedNote(dropdown, rawNote, teamColor), created), confirmOverwrite)
    {
      var note := CombinedNote(dropdown, rawNote, teamColor);
      outcome := store.Save(playhead.seek, kind, note, nowMs, created, confirmOverwrite);
    }

    /** loadSeekPosition: a stored position in [0, MAX_SEC] becomes the playhead; anything else is ignored. */
    method RestoreSeek(saved: Option<string>) returns (restored: bool)
      requires Valid()
      modifies playhead
      ensures Valid() && restored == LoadSeek(saved, MaxSec).Some?
      ensures restored ==> playhead.seek == LoadSeek(saved, MaxSec).value && 0 <= playhead.seek <= MaxSec
      ensures !restored ==> playhead.seek == old(playhead.seek)
      ensures playhead.playing == old(playhead.playing)
    {
      var position := LoadSeek(saved, MaxSec);
      if position.Some? {
        playhead.seek := position.value;
        return true;
      }
      return false;
    }

    /**
     * The seek-position steps of init as written: updateZoom and syncStarts both render, and
     * every render saves the current position, before loadSeekPosition reads the key back; a
     * missed restore falls back to 0 and the closing render saves again. Returns the storage
     * afterwards. Whatever was stored, the position read back is the one just written.
     */
    method InitSeekAsWritten(storage: map<string, string>) returns (after: map<string, string>, restored: bool)
      requires Valid()
      modifies playhead
      ensures Valid() && playhead.playing == old(playhead.playing)
      ensures restored <==> 0 <= old(playhead.seek) <= MaxSec
      ensures playhead.seek == if restored then old(playhead.seek) else 0
      ensures after == SaveSeek(storage, playhead.seek)
    {
      var current := playhead.seek;
      var written := SaveSeek(storage, current);
      restored := RestoreSeek(Lookup(written, KeySeek));
      if !restored {
        playhead.seek := 0;
      }
      SeekReadBack(storage, current, playhead.seek, MaxSec);
      after := SaveSeek(written, playhead.seek);
    }

    /**
     * The same steps with loadSeekPosition ahead of the first render: the stored position is
     * restored when it is a number in [0, MAX_SEC], the playhead is at 0 otherwise, and only
     * then is the position saved again.
     */
    method InitSeek(storage: map<string, string>) returns (after: map<string, string>, restored: bool)
      requires Valid()
      modifies playhead
      ensures Valid() && playhead.playing == old(playhead.playing)
      ensures restored == LoadSeek(Lookup(storage, KeySeek), MaxSec).Some?
      ensures playhead.seek == if restored then LoadSeek(Lookup(storage, KeySeek), MaxSec).value else 0
      ensures after == SaveSeek(storage, playhead.seek)
    {
      restored := RestoreSeek(Lookup(storage, KeySeek));
      if !restored {
        playhead.seek := 0;
      }
      after := SaveSeek(storage, playhead.seek);
    }

    /** buildTicks: both rows run from 0 to the cap at the zoom level's tick interval. */
    method BuildTicks() returns (first: seq<Tick>, second: seq<Tick>)
      requires Valid()
      ensures |first| == |second| == TickCount(Cap(), ZoomLevels[zoomIndex].tickInterval)
      ensures forall i :: 0 <= i < |first| ==>
        first[i] == MainMark(0, ZoomLevels[zoomIndex], i * ZoomLevels[zoomIndex].tickInterval)
      ensures forall i :: 0 <= i < |second| ==>
        second[i] == MainMark(1, ZoomLevels[zoomIndex], i * ZoomLevels[zoomIndex].tickInterval)
    {
      var zoom := ZoomLevels[zoomIndex];
      var cap := Cap();
      first := LayOut(cap, zoom.tickInterval, s => MainMark(0, zoom, s));
      second := LayOut(cap, zoom.tickInterval, s => MainMark(1, zoom, s));
    }
  }
}
