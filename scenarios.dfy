/**
 * Runs of the main tuner's handlers: how the quick extra-time buttons interact with
 * autoplay, and what a reload restores of the saved seek position.
 */
module Scenarios {
  import opened Seek
  import opened MainTuner
  import opened Persist

  /**
   * As written: autoplay starts at 0 on clock second 1000; 100 s later the 90+5 quick button
   * moves the playhead to 7500, and the next autoplay tick, one second on, puts it back at 101.
   */
  method QuickJumpLostDuringAutoplay() returns (afterJump: int, afterTick: int, playing: bool)
    ensures afterJump == 7500 && afterTick == 101 && playing
  {
    var tuner := new Tuner([]);
    tuner.Space(1000);
    tuner.playhead.Tick(1100);
    tuner.QuickJumpAsWritten(7500);
    afterJump := tuner.playhead.seek;
    tuner.playhead.Tick(1101);
    afterTick := tuner.playhead.seek;
    playing := tuner.playhead.playing;
  }

  /** Corrected: the same presses with the jump stopping autoplay leave the playhead at 7500. */
  method QuickJumpHeldAfterCorrection() returns (afterJump: int, afterTick: int, playing: bool)
    ensures afterJump == 7500 && afterTick == 7500 && !playing
  {
    var tuner := new Tuner([]);
    tuner.Space(1000);
    tuner.playhead.Tick(1100);
    tuner.QuickJump(7500);
    afterJump := tuner.playhead.seek;
    tuner.playhead.Tick(1101);
    afterTick := tuner.playhead.seek;
    playing := tuner.playhead.playing;
  }

  /** Autoplay from 8998 reaches the end of the timeline after two seconds and stops there. */
  method AutoplayStopsAtEnd() returns (seek: int, playing: bool)
    ensures seek == MaxSec && !playing
  {
    var tuner := new Tuner([]);
    tuner.SheetGo(149, 58);
    tuner.Space(50);
    tuner.playhead.Tick(51);
    tuner.playhead.Tick(53);
    seek := tuner.playhead.seek;
    playing := tuner.playhead.playing;
  }

  /**
   * As written: whatever position in [0, MAX_SEC] the previous session saved, a fresh page
   * writes its own 0 over it before reading it, reopens at 0 and reports the position as
   * restored.
   */
  method ReloadAsWritten(storage: map<string, string>, saved: int) returns (reopened: int, restored: bool)
    requires 0 <= saved <= MaxSec
    ensures reopened == 0 && restored
  {
    var previous := SaveSeek(storage, saved);
    var tuner := new Tuner([]);
    var after;
    after, restored := tuner.InitSeekAsWritten(previous);
    reopened := tuner.playhead.seek;
  }

  /** Corrected: loading before the first render reopens the page at the saved position. */
  method ReloadCorrected(storage: map<string, string>, saved: int) returns (reopened: int, restored: bool)
    requires 0 <= saved <= MaxSec
    ensures reopened == saved && restored
  {
    var previous := SaveSeek(storage, saved);
    SeekRoundTrip(storage, saved, MaxSec);
    var tuner := new Tuner([]);
    var after;
    after, restored := tuner.InitSeek(previous);
    reopened := tuner.playhead.seek;
  }
}
