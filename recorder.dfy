/**
 * The sensor-session recorder of MainActivity.kt without its Android glue:
 * the `isRecording` flag, the session start time, the four append-only
 * buffers, the list of per-tick frame snapshots, the frame counter and the two
 * self-re-posting runnables that drive it. Every platform callback is a method
 * call, and the wall clock is the explicit `now` argument.
 */
module Recording {
  import opened Wrappers
  import opened FrameClock
  import opened Records
  import opened Summary
  import opened Export

  /** Which runnable the activity's `frameCounterRunnable` field holds. */
  datatype RunnableRef = NoRunnable | CounterRunnable | CaptureRunnable

  /** Frame records whose elapsed times never go down. */
  ghost predicate TimestampsOrdered(frames: seq<FrameData>) {
    forall i, j :: 0 <= i <= j < |frames| ==> frames[i].timestamp <= frames[j].timestamp
  }

  /**
   * Frame numbers follow elapsed time: snapshots taken under a clock that does
   * not go back carry non-decreasing frame numbers.
   */
  lemma FrameNumbersOrdered(frames: seq<FrameData>)
    requires forall f <- frames :: f.frameNumber == FrameFloor(f.timestamp)
    requires TimestampsOrdered(frames)
    ensures forall i, j :: 0 <= i <= j < |frames| ==> frames[i].frameNumber <= frames[j].frameNumber
  {
    forall i, j | 0 <= i <= j < |frames|
      ensures frames[i].frameNumber <= frames[j].frameNumber
    {
      assert frames[i] in frames && frames[j] in frames;
      FrameFloorMonotone(frames[i].timestamp, frames[j].timestamp);
    }
  }

  class Recorder {
    /** Date and number rendering (SimpleDateFormat, Float/Double.toString). */
    const fmt: Formats

    var isRecording: bool
    var recordingStartTime: int
    var frameCounter: int
    var gyroscopeData: seq<SensorData>
    var accelerometerData: seq<SensorData>
    var magnetometerData: seq<SensorData>
    var locationData: seq<LocationData>
    var frameData: seq<FrameData>

    /** `frameCounterRunnable`, and whether each of the two runnables is still queued on the handler. */
    var frameCounterRunnable: RunnableRef
    var counterPosted: bool
    var capturePosted: bool

    /**
     * Every buffered record was stamped against the current start time; every
     * frame's number is the estimate for its elapsed time and its snapshot is
     * not empty; while recording, every snapshot is a prefix of the current
     * buffers (the buffers only grow during a session).
     */
    ghost predicate Valid()
      reads this
    {
      && (forall d <- gyroscopeData :: SensorStamped(d, recordingStartTime, fmt))
      && (forall d <- accelerometerData :: SensorStamped(d, recordingStartTime, fmt))
      && (forall d <- magnetometerData :: SensorStamped(d, recordingStartTime, fmt))
      && (forall d <- locationData :: LocationStamped(d, recordingStartTime, fmt))
      && (forall f <- frameData :: f.frameNumber == FrameFloor(f.timestamp) && HasReadings(f))
      && (isRecording ==> forall f <- frameData :: SnapshotWithin(f))
    }

    /** `f` was taken in this session from the buffers as they stand now or earlier. */
    ghost predicate SnapshotWithin(f: FrameData)
      reads this
    {
      && f.gyroData <= gyroscopeData
      && f.accelData <= accelerometerData
      && f.magnetData <= magnetometerData
      && f.locationData <= locationData
      && f.absoluteTime == fmt.date(recordingStartTime + f.timestamp)
    }

    /** The record `captureFrameData` appends: a copy of every buffer's whole contents. */
    function Snapshot(frameNumber: int, elapsedMs: int): FrameData
      reads this
    {
      FrameData(frameNumber, elapsedMs, fmt.date(recordingStartTime + elapsedMs),
                gyroscopeData, accelerometerData, magnetometerData, locationData)
    }

    constructor (fmt: Formats)
      ensures Valid() && this.fmt == fmt
      ensures !isRecording && recordingStartTime == 0 && frameCounter == 0
      ensures gyroscopeData == [] && accelerometerData == [] && magnetometerData == [] && locationData == []
      ensures frameData == []
      ensures frameCounterRunnable == NoRunnable && !counterPosted && !capturePosted
    {
      this.fmt := fmt;
      isRecording := false;
      recordingStartTime := 0;
      frameCounter := 0;
      gyroscopeData, accelerometerData, magnetometerData, locationData := [], [], [], [];
      frameData := [];
      frameCounterRunnable := NoRunnable;
      counterPosted, capturePosted := false, false;
    }

    /**
     * `startRecording`, called by the record button only while not recording.
     * Without a bound camera it changes nothing. Otherwise it empties the four
     * buffers, then stamps the start time, and posts the frame-counter
     * runnable. It neither sets `isRecording` (the video Start event does) nor
     * clears the frame list (frame capture does).
     */
    method StartRecording(cameraReady: bool, now: int)
      requires Valid() && !isRecording
      modifies this`gyroscopeData, this`accelerometerData, this`magnetometerData, this`locationData
      modifies this`recordingStartTime, this`frameCounter, this`frameCounterRunnable, this`counterPosted
      ensures Valid()
      ensures !cameraReady ==> unchanged(this)
      ensures cameraReady ==>
        && gyroscopeData == [] && accelerometerData == [] && magnetometerData == [] && locationData == []
        && recordingStartTime == now && frameCounter == 0
        && frameCounterRunnable == CounterRunnable && counterPosted
      ensures !isRecording && frameData == old(frameData)
    {
      if !cameraReady {
        return;
      }
      gyroscopeData := [];
      accelerometerData := [];
      magnetometerData := [];
      locationData := [];
      recordingStartTime := now;
      frameCounter := 0;
      frameCounterRunnable := CounterRunnable;
      counterPosted := true;
    }

    /** `VideoRecordEvent.Start`: recording begins and frame capture starts. */
    method OnVideoStart()
      requires Valid()
      modifies this`isRecording, this`frameCounter, this`frameData, this`frameCounterRunnable, this`capturePosted
      ensures Valid()
      ensures isRecording && frameCounter == 0 && frameData == []
      ensures frameCounterRunnable == CaptureRunnable && capturePosted
    {
      isRecording := true;
      StartFrameCapture();
    }

    /** `startFrameCapture`: drops the previous session's frames and posts the capture runnable. */
    method StartFrameCapture()
      modifies this`frameCounter, this`frameData, this`frameCounterRunnable, this`capturePosted
      ensures frameCounter == 0 && frameData == []
      ensures frameCounterRunnable == CaptureRunnable && capturePosted
    {
      frameCounter := 0;
      frameData := [];
      frameCounterRunnable := CaptureRunnable;
      capturePosted := true;
    }

    /** `VideoRecordEvent.Finalize` (with or without error): the only place recording ends. */
    method OnVideoFinalize()
      requires Valid()
      modifies this`isRecording
      ensures Valid() && !isRecording
    {
      isRecording := false;
    }

    /**
     * `onSensorChanged`: ignored while not recording; otherwise the reading is
     * stamped and appended to the buffer of its sensor type, and a reading of
     * any other type is dropped.
     */
    method OnSensorChanged(sensorType: SensorType, x: real, y: real, z: real, now: int)
      requires Valid()
      modifies this`gyroscopeData, this`accelerometerData, this`magnetometerData
      ensures Valid()
      ensures !isRecording ==> unchanged(this)
      ensures var d := NewSensorData(recordingStartTime, now, fmt, x, y, z);
        && gyroscopeData == old(gyroscopeData) + (if isRecording && sensorType.Gyroscope? then [d] else [])
        && accelerometerData == old(accelerometerData) + (if isRecording && sensorType.Accelerometer? then [d] else [])
        && magnetometerData == old(magnetometerData) + (if isRecording && sensorType.MagneticField? then [d] else [])
    {
      if !isRecording {
        return;
      }
      var d := NewSensorData(recordingStartTime, now, fmt, x, y, z);
      match sensorType {
        case Gyroscope => gyroscopeData := gyroscopeData + [d];
        case Accelerometer => accelerometerData := accelerometerData + [d];
        case MagneticField => magnetometerData := magnetometerData + [d];
        case Unlisted(_) =>
      }
    }

    /** `locationDataList.add(...)` for one fix read at `now`. */
    method AppendLocation(fix: Fix, now: int)
      requires Valid()
      modifies this`locationData
      ensures Valid()
      ensures locationData == old(locationData) + [NewLocationData(recordingStartTime, now, fmt, fix)]
    {
      locationData := locationData + [NewLocationData(recordingStartTime, now, fmt, fix)];
    }

    /**
     * The callback of `setupLocationUpdates`: each fix of the result, read at
     * its own clock value, is appended only while recording.
     */
    method OnLocationResult(fixes: seq<Fix>, clock: seq<int>)
      requires Valid() && |clock| == |fixes|
      modifies this`locationData
      ensures Valid()
      ensures !isRecording ==> unchanged(this)
      ensures locationData == old(locationData)
        + (if isRecording then LocationRecords(recordingStartTime, fmt, fixes, clock) else [])
    {
      var i := 0;
      while i < |fixes|
        invariant 0 <= i <= |fixes|
        invariant Valid()
        invariant locationData == old(locationData)
          + (if isRecording then LocationRecords(recordingStartTime, fmt, fixes[..i], clock[..i]) else [])
      {
        if isRecording {
          AppendLocation(fixes[i], clock[i]);
          assert LocationRecords(recordingStartTime, fmt, fixes[..i + 1], clock[..i + 1])
            == LocationRecords(recordingStartTime, fmt, fixes[..i], clock[..i])
               + [NewLocationData(recordingStartTime, clock[i], fmt, fixes[i])];
        }
        i := i + 1;
      }
      assert fixes[..i] == fixes && clock[..i] == clock;
    }

    /**
     * The callback registered by `startRecording`: it appends every fix
     * whether or not recording is on.
     */
    method OnSessionLocationResult(fixes: seq<Fix>, clock: seq<int>)
      requires Valid() && |clock| == |fixes|
      modifies this`locationData
      ensures Valid()
      ensures locationData == old(locationData) + LocationRecords(recordingStartTime, fmt, fixes, clock)
    {
      var i := 0;
      while i < |fixes|
        invariant 0 <= i <= |fixes|
        invariant Valid()
        invariant locationData == old(locationData) + LocationRecords(recordingStartTime, fmt, fixes[..i], clock[..i])
      {
        AppendLocation(fixes[i], clock[i]);
        assert LocationRecords(recordingStartTime, fmt, fixes[..i + 1], clock[..i + 1])
          == LocationRecords(recordingStartTime, fmt, fixes[..i], clock[..i])
             + [NewLocationData(recordingStartTime, clock[i], fmt, fixes[i])];
        i := i + 1;
      }
      assert fixes[..i] == fixes && clock[..i] == clock;
    }

    /** `captureFrameData`: a cumulative snapshot, appended only when some buffer holds a reading. */
    method CaptureFrameData(frameNumber: int, elapsedMs: int)
      modifies this`frameData
      ensures frameData == old(frameData) + (if HasReadings(Snapshot(frameNumber, elapsedMs)) then [Snapshot(frameNumber, elapsedMs)] else [])
    {
      if HasReadings(Snapshot(frameNumber, elapsedMs)) {
        frameData := frameData + [Snapshot(frameNumber, elapsedMs)];
      }
    }

    /**
     * One run of the capture runnable posted by `startFrameCapture`. If it is
     * not queued nothing happens; if recording has ended it does not re-post
     * itself; otherwise it sets the frame counter to the estimate for the
     * elapsed time, captures a snapshot, and re-posts itself.
     */
    method Tick(now: int)
      requires Valid()
      modifies this`frameCounter, this`frameData, this`capturePosted
      ensures Valid()
      ensures !old(capturePosted) ==> unchanged(this)
      ensures old(capturePosted) && !isRecording ==>
        !capturePosted && frameCounter == old(frameCounter) && frameData == old(frameData)
      ensures old(capturePosted) && isRecording ==>
        var elapsedMs := now - recordingStartTime;
        && capturePosted && frameCounter == FrameFloor(elapsedMs)
        && frameData == old(frameData) + (if HasReadings(Snapshot(FrameFloor(elapsedMs), elapsedMs)) then [Snapshot(FrameFloor(elapsedMs), elapsedMs)] else [])
      ensures TimestampsOrdered(old(frameData))
        && (old(frameData) != [] ==> old(frameData)[|old(frameData)| - 1].timestamp <= now - recordingStartTime)
        ==> TimestampsOrdered(frameData)
    {
      if !capturePosted {
        return;
      }
      if !isRecording {
        capturePosted := false;
        return;
      }
      var elapsedMs := now - recordingStartTime;
      frameCounter := FrameFloor(elapsedMs);
      CaptureFrameData(frameCounter, elapsedMs);
    }

    /**
     * One run of the frame-counter runnable posted by `startRecording`: while
     * recording it sets the counter from the integer estimate and re-posts
     * itself; otherwise it stops.
     */
    method CounterTick(now: int)
      requires Valid()
      modifies this`frameCounter, this`counterPosted
      ensures Valid()
      ensures !old(counterPosted) ==> unchanged(this)
      ensures old(counterPosted) ==>
        && counterPosted == isRecording
        && frameCounter == (if isRecording then FrameTrunc(now - recordingStartTime) else old(frameCounter))
    {
      if !counterPosted {
        return;
      }
      if isRecording {
        frameCounter := FrameTrunc(now - recordingStartTime);
      } else {
        counterPosted := false;
      }
    }

    /** `saveSensorData`: the four sensor tables, written in order until one write throws. */
    method SaveSensorData(failing: set<string>) returns (outcome: SaveOutcome)
      ensures outcome == SensorExport(gyroscopeData, accelerometerData, magnetometerData, locationData,
                                      fmt.fileStamp(recordingStartTime), fmt, failing)
    {
      var f := fmt;
      var stamp := f.fileStamp(recordingStartTime);
      var gyro := WriteSensorFile("Gyroscope", stamp, gyroscopeData, f);
      var accel := WriteSensorFile("Accelerometer", stamp, accelerometerData, f);
      var magnet := WriteSensorFile("Magnetometer", stamp, magnetometerData, f);
      var fixes := WriteLocationFile(stamp, locationData, f);
      var pending := gyro + accel + magnet + fixes;
      assert pending == PendingSensorFiles(gyroscopeData, accelerometerData, magnetometerData, locationData, stamp, f);
      outcome := WriteFiles(pending, failing);
    }

    /** `saveFrameData`: the header and one line per frame, even with no frames. */
    method SaveFrameData(failing: set<string>) returns (file: Option<CsvFile>)
      ensures file == FrameExport(frameData, fmt.fileStamp(recordingStartTime), fmt, failing)
    {
      var f := fmt;
      file := WriteFrameFile(f.fileStamp(recordingStartTime), frameData, f, failing);
    }

    /**
     * The `removeCallbacks` step of `stopRecording`: the runnable that
     * `frameCounterRunnable` holds stops being posted; the other stays as it was.
     */
    method RemoveCurrentRunnable()
      requires Valid()
      modifies this`counterPosted, this`capturePosted
      ensures Valid()
      ensures frameCounterRunnable == CaptureRunnable ==> !capturePosted && counterPosted == old(counterPosted)
      ensures frameCounterRunnable == CounterRunnable ==> !counterPosted && capturePosted == old(capturePosted)
      ensures frameCounterRunnable == NoRunnable ==> unchanged(this)
    {
      match frameCounterRunnable {
        case CaptureRunnable => capturePosted := false;
        case CounterRunnable => counterPosted := false;
        case NoRunnable =>
      }
    }

    /**
     * `stopRecording`: asks the camera to stop (the Finalize event comes
     * later, so `isRecording` is still set), removes the runnable that
     * `frameCounterRunnable` holds, then saves the sensor tables and the frame
     * table.
     */
    method StopRecording(failing: set<string>) returns (sensorFiles: SaveOutcome, frameFile: Option<CsvFile>)
      requires Valid()
      modifies this`counterPosted, this`capturePosted
      ensures Valid() && isRecording == old(isRecording)
      ensures frameCounterRunnable == CaptureRunnable ==> !capturePosted && counterPosted == old(counterPosted)
      ensures frameCounterRunnable == CounterRunnable ==> !counterPosted && capturePosted == old(capturePosted)
      ensures frameCounterRunnable == NoRunnable ==> unchanged(this)
      ensures sensorFiles == SensorExport(gyroscopeData, accelerometerData, magnetometerData, locationData,
                                          fmt.fileStamp(recordingStartTime), fmt, failing)
      ensures frameFile == FrameExport(frameData, fmt.fileStamp(recordingStartTime), fmt, failing)
    {
      RemoveCurrentRunnable();
      sensorFiles := SaveSensorData(failing);
      frameFile := SaveFrameData(failing);
    }
  }

  /** Three accelerometer readings with x = 1, 2, 3 pushed 10 ms apart into a fresh session. */
  method AccelerometerMeanScenario() {
    var r := new Recorder(Formats(t => "t", t => "s", v => "v", v => "w"));
    r.StartRecording(true, 1000);
    r.OnVideoStart();
    r.OnSensorChanged(Accelerometer, 1.0, 0.0, 0.0, 1000);
    r.OnSensorChanged(Accelerometer, 2.0, 0.0, 0.0, 1010);
    r.OnSensorChanged(Accelerometer, 3.0, 0.0, 0.0, 1020);
    assert Xs(r.accelerometerData) == [1.0, 2.0, 3.0];
    TickScenario(r);
  }

  /**
   * A tick 100 ms into that session: the frame is number 3, and its row has
   * accel_x = 2.0 and, with no fix, zero location columns.
   */
  method TickScenario(r: Recorder)
    requires r.Valid() && r.isRecording && r.capturePosted && r.recordingStartTime == 1000
    requires r.frameData == [] && r.gyroscopeData == [] && r.magnetometerData == [] && r.locationData == []
    requires Xs(r.accelerometerData) == [1.0, 2.0, 3.0]
    modifies r
  {
    r.Tick(1100);
    assert |r.frameData| == 1;
    var f := r.frameData[0];
    assert f.frameNumber == 3 && f.timestamp == 100;
    MeanExample();
    assert Summarize(f).accelX == 2.0 && Summarize(f).latitude == 0.0;
  }

  /**
   * Stop, then start again: after stopping, a tick adds no frame; the next
   * session starts from empty buffers and an empty frame list.
   */
  method RestartScenario(r: Recorder, now: int, later: int)
    requires r.Valid() && r.isRecording && r.frameCounterRunnable == CaptureRunnable
    modifies r
  {
    var sensorFiles, frameFile := r.StopRecording({});
    var before := r.frameData;
    r.Tick(now);
    assert r.frameData == before;
    r.OnVideoFinalize();
    r.StartRecording(true, later);
    assert r.gyroscopeData == [] && r.accelerometerData == [] && r.magnetometerData == [] && r.locationData == [];
    r.OnVideoStart();
    assert r.frameData == [];
  }
}
