/**
 * Estimated frame numbers. The recorder never sees real video frames: it turns
 * the milliseconds elapsed since `recordingStartTime` into a frame index under
 * an assumed capture rate. MainActivity.kt writes this estimate in two forms:
 *  - the integer form `(ms * estimatedFrameRate / 1000).toInt()` (location
 *    callbacks, the frame counter posted by `startRecording`), where Kotlin's
 *    Long division truncates toward zero;
 *  - the "more precise" form `floor(ms / (1000.0 / estimatedFrameRate))`
 *    (`onSensorChanged`, `startFrameCapture`), read here over exact reals.
 */
module FrameClock {

  /** `estimatedFrameRate`: the assumed capture rate, in frames per second. */
  const EstimatedFrameRate: int := 30

  /** The integer form `(ms * estimatedFrameRate / 1000).toInt()`. */
  function FrameTrunc(elapsedMs: int): (frame: int)
    ensures elapsedMs >= 0 ==> 0 <= frame && frame * 1000 <= elapsedMs * EstimatedFrameRate < (frame + 1) * 1000
    ensures elapsedMs < 0 ==> frame <= 0 && (frame - 1) * 1000 < elapsedMs * EstimatedFrameRate <= frame * 1000
  {
    // Kotlin's Long division truncates toward zero; Dafny's `/` is Euclidean.
    var p := elapsedMs * EstimatedFrameRate;
    if p >= 0 then p / 1000 else -((-p) / 1000)
  }

  /**
   * The form `floor(ms / (1000.0 / estimatedFrameRate))`: the largest whole
   * number of nominal frame intervals that fit in `elapsedMs`.
   */
  function FrameFloor(elapsedMs: int): (frame: int)
    ensures (frame as real) <= (elapsedMs as real) / (1000.0 / (EstimatedFrameRate as real)) < (frame as real) + 1.0
  {
    var q := elapsedMs * EstimatedFrameRate / 1000;
    assert q * 1000 <= elapsedMs * EstimatedFrameRate < (q + 1) * 1000;
    assert (elapsedMs as real) / (1000.0 / 30.0) == (elapsedMs * 30) as real / 1000.0;
    q
  }

  /** Both forms are non-decreasing in the elapsed time. */
  lemma FrameFloorMonotone(a: int, b: int)
    requires a <= b
    ensures FrameFloor(a) <= FrameFloor(b)
  {
    assert (a as real) / (1000.0 / 30.0) <= (b as real) / (1000.0 / 30.0);
  }

  lemma FrameTruncMonotone(a: int, b: int)
    requires a <= b
    ensures FrameTrunc(a) <= FrameTrunc(b)
  {
  }

  /**
   * Over exact reals the two forms agree whenever the clock has not gone back
   * past the start. The program's double arithmetic does not: 1000.0 / 30 is
   * rounded up to 33.333333333333336, so at 500 ms the floating form gives
   * floor(14.999999999999998) = 14 where the integer form gives 15.
   */
  lemma {:induction false} FrameFormsAgree(elapsedMs: int)
    requires elapsedMs >= 0
    ensures FrameTrunc(elapsedMs) == FrameFloor(elapsedMs)
  {
    var t, f := FrameTrunc(elapsedMs), FrameFloor(elapsedMs);
    assert (elapsedMs as real) / (1000.0 / 30.0) == (elapsedMs * 30) as real / 1000.0;
    assert (f * 1000) as real <= (elapsedMs * 30) as real < ((f + 1) * 1000) as real;
  }

  /** Worked values: 0 ms is frame 0, 100 ms frame 3, 33 ms still frame 0; -1 ms splits the forms. */
  lemma FrameExamples()
    ensures FrameTrunc(0) == 0 && FrameFloor(0) == 0
    ensures FrameTrunc(100) == 3 && FrameFloor(100) == 3
    ensures FrameTrunc(33) == 0 && FrameFloor(33) == 0
    ensures FrameTrunc(-1) == 0 && FrameFloor(-1) == -1
  {
  }
}
