/**
 * The playhead: the current field time (the seek position) and the autoplay engine that
 * advances it at real-time speed. Explicit seeks stop autoplay; drags, wheel steps and arrow
 * keys are clamped to [0, maxSec].
 */
module Seek {
  import opened Wrappers

  /** Math.max(lo, Math.min(hi, v)). */
  function Clamp(v: int, lo: int, hi: int): (r: int)
    ensures lo <= hi ==> lo <= r <= hi
    ensures lo <= v <= hi ==> r == v
    ensures lo <= hi && v < lo ==> r == lo
    ensures lo <= hi && v > hi ==> r == hi
  {
    if v > hi then (if hi > lo then hi else lo) else if v > lo then v else lo
  }

  /** Clamping twice is clamping once, and clamping keeps the order of its inputs. */
  lemma ClampIdempotentMonotone(v: int, w: int, lo: int, hi: int)
    requires lo <= hi
    ensures Clamp(Clamp(v, lo, hi), lo, hi) == Clamp(v, lo, hi)
    ensures v <= w ==> Clamp(v, lo, hi) <= Clamp(w, lo, hi)
  {
  }

  /** The same clamp on real numbers, for drags measured in pixels. */
  function ClampReal(v: real, lo: real, hi: real): (r: real)
    ensures lo <= hi ==> lo <= r <= hi
    ensures lo <= v <= hi ==> r == v
  {
    if v > hi then (if hi > lo then hi else lo) else if v > lo then v else lo
  }

  /** Seconds moved by one wheel notch or arrow key: 30 with Shift held, 5 without. */
  function StepSeconds(shift: bool): (r: int)
    ensures r > 0
    ensures shift ==> r == 30
    ensures !shift ==> r == 5
  {
    if shift then 30 else 5
  }

  /** Wheel direction: forward in time when either delta is positive, backward otherwise. */
  function WheelDirection(deltaX: real, deltaY: real): int
  {
    if deltaY > 0.0 || deltaX > 0.0 then 1 else -1
  }

  /**
   * One wheel notch from a position on the timeline moves forward when either delta is
   * positive and backward otherwise, by exactly one step unless it stops at an end.
   */
  lemma WheelStep(seek: int, deltaX: real, deltaY: real, shift: bool, maxSec: int)
    requires 0 <= seek <= maxSec
    ensures var r := Clamp(seek + WheelDirection(deltaX, deltaY) * StepSeconds(shift), 0, maxSec);
      0 <= r <= maxSec
      && (deltaY > 0.0 || deltaX > 0.0 ==> seek <= r && (r == seek + StepSeconds(shift) || r == maxSec))
      && (!(deltaY > 0.0 || deltaX > 0.0) ==> r <= seek && (r == seek - StepSeconds(shift) || r == 0))
  {
  }

  /** Seek position after dragging the timeline `dx` pixels at `pxPerSec` pixels per second. */
  function DragSeek(seek: real, dx: real, pxPerSec: real, maxSec: real): (r: real)
    requires pxPerSec > 0.0
    ensures 0.0 <= maxSec ==> 0.0 <= r <= maxSec
    ensures 0.0 <= seek - dx / pxPerSec <= maxSec ==> r == seek - dx / pxPerSec
    ensures 0.0 <= maxSec && seek - dx / pxPerSec < 0.0 ==> r == 0.0
    ensures 0.0 <= maxSec && seek - dx / pxPerSec > maxSec ==> r == maxSec
  {
    ClampReal(seek - dx / pxPerSec, 0.0, maxSec)
  }

  /** Dragging right moves back in time, dragging left moves forward, and a drag undone by the opposite drag returns to the start. */
  lemma DragDirectionAndUndo(seek: real, dx: real, pxPerSec: real, maxSec: real)
    requires pxPerSec > 0.0 && 0.0 <= seek <= maxSec
    ensures dx >= 0.0 ==> DragSeek(seek, dx, pxPerSec, maxSec) <= seek
    ensures dx <= 0.0 ==> DragSeek(seek, dx, pxPerSec, maxSec) >= seek
    ensures 0.0 <= seek - dx / pxPerSec <= maxSec ==> DragSeek(DragSeek(seek, dx, pxPerSec, maxSec), -dx, pxPerSec, maxSec) == seek
  {
    assert (-dx) / pxPerSec == -(dx / pxPerSec);
    if dx >= 0.0 {
      assert dx / pxPerSec >= 0.0;
    } else {
      assert dx / pxPerSec < 0.0;
    }
  }

  /** Field seconds per real second during autoplay. */
  const PlaybackSpeed := 1

  /** Where autoplay puts the playhead: the field time it started from plus the real time elapsed since. */
  function AutoplayTarget(startField: int, startInstant: int, now: int): int
  {
    startField + (now - startInstant) * PlaybackSpeed
  }

  /**
   * Autoplay starts where the playhead was, never runs backward as the clock advances, and
   * restarting it from an intermediate point lands where the uninterrupted run would.
   */
  lemma AutoplayPath(startField: int, startInstant: int, t1: int, t2: int)
    ensures AutoplayTarget(startField, startInstant, startInstant) == startField
    ensures t1 <= t2 ==> AutoplayTarget(startField, startInstant, t1) <= AutoplayTarget(startField, startInstant, t2)
    ensures AutoplayTarget(AutoplayTarget(startField, startInstant, t1), t1, t2) == AutoplayTarget(startField, startInstant, t2)
  {
  }

  class Playhead {
    /** MAX_SEC: the end of the timeline. */
    const maxSec: int
    var seek: int
    var playing: bool
    /** Clock reading (whole seconds) when autoplay started; null while paused. */
    var startInstant: Option<int>
    /** Seek position when autoplay started. */
    var startField: int

    ghost predicate Valid()
      reads this
    {
      maxSec >= 0 && (playing <==> startInstant.Some?)
    }

    constructor (maxSec: int, seek: int)
      requires maxSec >= 0
      ensures Valid() && this.maxSec == maxSec && this.seek == seek
      ensures !playing && startField == 0
    {
      this.maxSec := maxSec;
      this.seek := seek;
      playing := false;
      startInstant := None;
      startField := 0;
    }

    /** startAutoPlay: a no-op while playing; otherwise remembers the clock and the seek position. */
    method Start(now: int)
      requires Valid()
      modifies this
      ensures Valid() && playing && seek == old(seek)
      ensures old(playing) ==> startInstant == old(startInstant) && startField == old(startField)
      ensures !old(playing) ==> startInstant == Some(now) && startField == old(seek)
    {
      if playing {
        return;
      }
      playing := true;
      startInstant := Some(now);
      startField := seek;
    }

    /** stopAutoPlay: pauses and forgets the start clock; the seek position stays. */
    method Stop()
      requires Valid()
      modifies this
      ensures Valid() && !playing && startInstant == None
      ensures seek == old(seek) && startField == old(startField)
    {
      if !playing {
        return;
      }
      playing := false;
      startInstant := None;
    }

    /** The play button and the space bar. */
    method Toggle(now: int)
      requires Valid()
      modifies this
      ensures Valid() && playing == !old(playing) && seek == old(seek)
      ensures !old(playing) ==> startInstant == Some(now) && startField == old(seek)
    {
      if playing {
        Stop();
      } else {
        Start(now);
      }
    }

    /**
     * updateAutoPlay, run every 100 ms: while playing, the playhead follows the clock; on
     * reaching the end of the timeline it stays there and autoplay stops. A start clock of 0
     * counts as missing, as JavaScript's falsy test does.
     */
    method Tick(now: int)
      requires Valid()
      modifies this
      ensures Valid() && startField == old(startField)
      ensures !old(playing) || old(startInstant) == Some(0) ==>
        seek == old(seek) && playing == old(playing) && startInstant == old(startInstant)
      ensures old(playing) && old(startInstant) != Some(0) ==>
        var target := AutoplayTarget(old(startField), old(startInstant).value, now);
        (target >= maxSec ==> seek == maxSec && !playing)
        && (target < maxSec ==> seek == target && playing && startInstant == old(startInstant))
    {
      if !playing || startInstant.value == 0 {
        return;
      }
      var target := AutoplayTarget(startField, startInstant.value, now);
      if target >= maxSec {
        seek := maxSec;
        Stop();
        return;
      }
      seek := if target < maxSec then target else maxSec;
    }

    /** seekToTime: stops autoplay, then moves to `t` as given (not clamped). */
    method SeekTo(t: int)
      requires Valid()
      modifies this
      ensures Valid() && !playing && seek == t && startField == old(startField)
    {
      if playing {
        Stop();
      }
      seek := t;
    }

    /** Wheel notches and arrow keys: stop autoplay, move by `delta`, stay on the timeline. */
    method Nudge(delta: int)
      requires Valid()
      modifies this
      ensures Valid() && !playing && seek == Clamp(old(seek) + delta, 0, maxSec)
      ensures 0 <= seek <= maxSec && startField == old(startField)
    {
      if playing {
        Stop();
      }
      seek := Clamp(seek + delta, 0, maxSec);
    }

    /** The quick extra-time buttons as written: the position is set but autoplay is left running. */
    method Jump(t: int)
      requires Valid()
      modifies this
      ensures Valid() && seek == t
      ensures playing == old(playing) && startInstant == old(startInstant) && startField == old(startField)
    {
      seek := t;
    }

    /** goToLiveTime: stop, move to the live field time clamped to the timeline, start autoplay from there. */
    method GoLive(live: int, now: int)
      requires Valid()
      modifies this
      ensures Valid() && playing && seek == Clamp(live, 0, maxSec)
      ensures startInstant == Some(now) && startField == seek
    {
      if playing {
        Stop();
      }
      seek := if 0 > (if live < maxSec then live else maxSec) then 0 else (if live < maxSec then live else maxSec);
      Start(now);
    }
  }
}
