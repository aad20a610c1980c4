# Sensor-session recorder

A Dafny model of the recorder at the heart of the CameraApp Android activity
(`MainActivity`). While a video is being recorded, the activity collects
gyroscope, accelerometer, magnetometer and location readings into four buffers
and stamps each one with the time since the recording started and an estimated
video frame number. A repeating timer tick (every 33 ms) takes one cumulative
snapshot of all four buffers per tick, labelled with the estimated frame; two
ticks can carry the same number, a number can be skipped, and a tick with all
buffers empty takes none. When recording stops, the activity writes one
CSV table per non-empty sensor stream and one per-frame table holding the axis
means and the last location fix of each snapshot.

The model keeps the activity's own state and steps:

- `FrameClock` (frame_clock.dfy): the two ways the source turns elapsed milliseconds into a frame number.
  - The integer form `ms * 30 / 1000` uses Kotlin's truncating Long division.
  - The floating form `floor(ms / (1000.0 / 30))` is read over exact reals.
- `Csv` (csv.dfy): comma joining, quoting and `Long.toString`, with `Split` and `ParseInt` to read a line back.
- `Records` (records.dfy): the `SensorData`, `LocationData` and `FrameData` records, and how a reading is stamped on arrival.
- `Summary` (summary.dfy): the per-frame means and the last-fix columns.
- `Export` (export.dfy): headers, lines, tables, file paths, and writing files inside one `try`.
- `Recording` (recorder.dfy): class `Recorder`, whose methods are the activity's callbacks:
  - `startRecording`;
  - the video Start and Finalize events;
  - `onSensorChanged`;
  - the two location callbacks;
  - the two self-re-posting runnables;
  - `stopRecording`, `saveSensorData` and `saveFrameData`.

Inputs from the platform are explicit:
- The wall clock is a `now` argument. A location result carries one clock value per fix.
- Date formatting and `Float`/`Double` rendering are function values in a `Formats` record.
- A file write that throws is modelled by a set of failing paths.

Frame records hold **cumulative** snapshots, as in the code: each one copies
every buffer's entire contents at its tick, not only what arrived since the
previous tick.

The model keeps these behaviours of MainActivity.kt:
- `isRecording` becomes true only on the video Start event and false only on Finalize. `stopRecording` leaves it set.
- The frame list is cleared when frame capture starts on the Start event; `startRecording` leaves it alone.
- The location callback registered by `startRecording` appends fixes even when not recording. Only the callback from `setupLocationUpdates` checks `isRecording`.
- The four sensor tables are written inside one `try`, so the first failing write stops the rest. The frame table is saved separately.
- The frame table is written even when there are no frames: it then holds only its header.
- A second start while recording is not possible only because the record button calls `stopRecording` instead (MainActivity.kt:179-183). `StartRecording` requires `!isRecording` for that reason.

## Model

| member | source | states |
|---|---|---|
| FrameClock.FrameTrunc | CameraApp/app/src/main/java/com/example/cameraapp/MainActivity.kt:222 | for elapsed ms >= 0 the result is the largest r with r*1000 <= ms*30; for negative ms it truncates toward zero (Kotlin Long division) |
| FrameClock.FrameFloor | CameraApp/app/src/main/java/com/example/cameraapp/MainActivity.kt:591 | the result is the floor of ms / (1000/30) taken over exact reals, for every ms |
| FrameClock.FrameFloorMonotone | CameraApp/app/src/main/java/com/example/cameraapp/MainActivity.kt:662 | the floating-form estimate is non-decreasing in elapsed time |
| FrameClock.FrameTruncMonotone | CameraApp/app/src/main/java/com/example/cameraapp/MainActivity.kt:450 | the integer-form estimate is non-decreasing in elapsed time |
| FrameClock.FrameFormsAgree | CameraApp/app/src/main/java/com/example/cameraapp/MainActivity.kt:585-591 | over exact reals, for elapsed ms >= 0 the integer form (used for location fixes) and the floating form (used for sensor readings) give the same frame; the program's double arithmetic does not always agree (see "## Left out") |
| FrameClock.FrameExamples | CameraApp/app/src/main/java/com/example/cameraapp/MainActivity.kt:377 | 0 ms is frame 0, 100 ms is frame 3, 33 ms is frame 0; at -1 ms the two forms differ (0 against -1) |
| Csv.SplitJoin | CameraApp/app/src/main/java/com/example/cameraapp/MainActivity.kt:496 | cutting a comma-joined line at its commas gives back exactly the cells, when no cell contains a comma |
| Csv.IntStringRoundTrip | CameraApp/app/src/main/java/com/example/cameraapp/MainActivity.kt:496 | every Long/Int written in decimal reads back as the same integer |
| Csv.IntString | CameraApp/app/src/main/java/com/example/cameraapp/MainActivity.kt:496 | a `Long`/`Int` cell written in decimal never holds a comma or a line break, so it cannot split a CSV cell or line |
| Records.NewSensorData | CameraApp/app/src/main/java/com/example/cameraapp/MainActivity.kt:585-601 | a reading is stamped with absolute time now, relative time now - start, the date of now and the floor-form frame of the relative time, and keeps x, y, z |
| Records.NewLocationData | CameraApp/app/src/main/java/com/example/cameraapp/MainActivity.kt:373-390 | a fix is stamped like a reading but with the integer-form frame, and keeps latitude, longitude, altitude, accuracy, speed and bearing |
| Summary.Mean | CameraApp/app/src/main/java/com/example/cameraapp/MainActivity.kt:723-733 | `if (list.isNotEmpty()) list.average() else 0`: an empty list averages to 0 |
| Summary.MeanBounds | CameraApp/app/src/main/java/com/example/cameraapp/MainActivity.kt:723-733 | a non-empty average lies between any lower and upper bound of the averaged values |
| Summary.MeanOfEqualValues | CameraApp/app/src/main/java/com/example/cameraapp/MainActivity.kt:723-733 | readings that all have the same value average to that value |
| Summary.MeanExample | CameraApp/app/src/main/java/com/example/cameraapp/MainActivity.kt:727 | x values 1.0, 2.0, 3.0 average to 2.0 |
| Summary.MeanWithinRange | CameraApp/app/src/main/java/com/example/cameraapp/MainActivity.kt:723-733 | a non-empty axis averages to a value between its smallest and its largest reading |
| Summary.SummaryMotionColumns | CameraApp/app/src/main/java/com/example/cameraapp/MainActivity.kt:723-733 | each of the nine motion columns of a frame row is 0 when its sensor's snapshot is empty and otherwise lies between the smallest and the largest reading of that sensor on that axis |
| Summary.Summarize | CameraApp/app/src/main/java/com/example/cameraapp/MainActivity.kt:723-738 | a frame row copies the frame number, elapsed ms and time; its latitude, longitude and altitude are those of the snapshot's last fix, or 0.0 when it has no fix |
| Export.Table | CameraApp/app/src/main/java/com/example/cameraapp/MainActivity.kt:493-498 | a table is the header followed by exactly one rendered line per item, in item order, and nothing else |
| Export.WriteTable | CameraApp/app/src/main/java/com/example/cameraapp/MainActivity.kt:493-498 | the write loop produces exactly that table |
| Export.SensorLine | CameraApp/app/src/main/java/com/example/cameraapp/MainActivity.kt:496 | a sensor line ends in its newline (its cells are stated by SensorLineRoundTrip) |
| Export.LocationLine | CameraApp/app/src/main/java/com/example/cameraapp/MainActivity.kt:535 | a location line ends in its newline (its cells are stated by LocationLineRoundTrip) |
| Export.FrameLine | CameraApp/app/src/main/java/com/example/cameraapp/MainActivity.kt:740-741 | a frame line ends in its newline (its cells are stated by FrameLineRoundTrip) |
| Export.SensorTable | CameraApp/app/src/main/java/com/example/cameraapp/MainActivity.kt:491-498 | a sensor table is its header, then one sensor line per reading in arrival order |
| Export.LocationTable | CameraApp/app/src/main/java/com/example/cameraapp/MainActivity.kt:530-537 | a location table is its header, then one location line per fix in arrival order |
| Export.FrameTable | CameraApp/app/src/main/java/com/example/cameraapp/MainActivity.kt:718-742 | the frame table is its header, then one frame line per captured frame in capture order |
| Export.WriteSensorFile | CameraApp/app/src/main/java/com/example/cameraapp/MainActivity.kt:491-501 | one motion stream's write: its table under its own path when the buffer is non-empty, no file otherwise |
| Export.WriteLocationFile | CameraApp/app/src/main/java/com/example/cameraapp/MainActivity.kt:530-540 | the location stream's write: its table under the Location path when there are fixes, no file otherwise |
| Export.WriteFrameFile | CameraApp/app/src/main/java/com/example/cameraapp/MainActivity.kt:707-751 | the frame file's write: exactly the frame export |
| Export.LineCells | CameraApp/app/src/main/java/com/example/cameraapp/MainActivity.kt:740-742 | a written line (cells joined by commas plus a newline) reads back as exactly its cells |
| Export.SensorLineRoundTrip | CameraApp/app/src/main/java/com/example/cameraapp/MainActivity.kt:496 | a sensor line has 7 cells: relative time, absolute time and frame read back as the record's values, the date is quoted, and x, y, z follow in that order |
| Export.LocationLineRoundTrip | CameraApp/app/src/main/java/com/example/cameraapp/MainActivity.kt:535 | a location line has 10 cells: the integer fields read back, the date is quoted, then latitude, longitude, altitude, accuracy, speed, bearing |
| Export.FrameLineRoundTrip | CameraApp/app/src/main/java/com/example/cameraapp/MainActivity.kt:740-741 | a frame line has 15 cells: frame number and elapsed ms read back, the time is quoted, then the nine axis means of the snapshot and the last fix's coordinates (zeros without a fix) |
| Export.SensorLineIsOneLine | CameraApp/app/src/main/java/com/example/cameraapp/MainActivity.kt:496 | a sensor line holds no line break before its last character, when the date and number renderings hold none |
| Export.LocationLineIsOneLine | CameraApp/app/src/main/java/com/example/cameraapp/MainActivity.kt:535 | a location line holds no line break before its last character, under the same condition |
| Export.FrameLineIsOneLine | CameraApp/app/src/main/java/com/example/cameraapp/MainActivity.kt:740-741 | a frame line holds no line break before its last character, under the same condition |
| Export.PendingSensorFiles | CameraApp/app/src/main/java/com/example/cameraapp/MainActivity.kt:491-540 | the files saveSensorData sets out to write: at most four, none at all exactly when every buffer is empty, and never one holding only its header |
| Export.SensorPathsDiffer | CameraApp/app/src/main/java/com/example/cameraapp/MainActivity.kt:492-531 | the Gyroscope, Accelerometer, Magnetometer and Location file paths of one session are pairwise different |
| Export.PendingSensorFilesPerStream | CameraApp/app/src/main/java/com/example/cameraapp/MainActivity.kt:491-540 | each stream gets a file exactly when its buffer is non-empty, and that file is the stream's header plus one line per record |
| Export.WriteUntilFailure | CameraApp/app/src/main/java/com/example/cameraapp/MainActivity.kt:480-544 | the written files are a prefix of the pending ones and none of them failed; with no failure all are written; otherwise the next pending file is the one that failed and nothing after it is tried |
| Export.WriteFiles | CameraApp/app/src/main/java/com/example/cameraapp/MainActivity.kt:480-544 | the write loop produces exactly the write-until-first-failure outcome |
| Export.SensorExport | CameraApp/app/src/main/java/com/example/cameraapp/MainActivity.kt:479-545 | the sensor save writes a prefix of the pending files, none of whose paths fails; it reports a failure exactly when one pending path fails, and then the reported path is the first failing pending path, right after the written ones; otherwise it writes every pending file |
| Export.FrameExport | CameraApp/app/src/main/java/com/example/cameraapp/MainActivity.kt:707-751 | the frame save yields nothing exactly when its path fails, and otherwise the FrameData path holding the header and then the frame line of each frame, in capture order |
| Recording.FrameNumbersOrdered | CameraApp/app/src/main/java/com/example/cameraapp/MainActivity.kt:659-669 | frames whose elapsed times are ordered carry non-decreasing frame numbers |
| Recording.Recorder.constructor | CameraApp/app/src/main/java/com/example/cameraapp/MainActivity.kt:56-124 | a new recorder is not recording, has start time 0, frame counter 0, empty buffers and no frames |
| Recording.Recorder.StartRecording | CameraApp/app/src/main/java/com/example/cameraapp/MainActivity.kt:329-343 | without a camera nothing changes; otherwise all four buffers are emptied before the start time is set to now, the frame counter is reset and its runnable posted; isRecording and the frame list are untouched |
| Recording.Recorder.OnVideoStart | CameraApp/app/src/main/java/com/example/cameraapp/MainActivity.kt:419-423 | the Start event sets isRecording, empties the frame list and resets the frame counter |
| Recording.Recorder.StartFrameCapture | CameraApp/app/src/main/java/com/example/cameraapp/MainActivity.kt:652-676 | frame capture resets the counter, empties the frame list and posts the capture runnable |
| Recording.Recorder.OnVideoFinalize | CameraApp/app/src/main/java/com/example/cameraapp/MainActivity.kt:424-435 | the Finalize event, with or without error, clears isRecording and nothing else |
| Recording.Recorder.OnSensorChanged | CameraApp/app/src/main/java/com/example/cameraapp/MainActivity.kt:582-623 | while not recording nothing changes; otherwise exactly one stamped record is appended to the buffer of the reading's type, the other buffers are unchanged, and an unlisted type changes nothing |
| Recording.Recorder.AppendLocation | CameraApp/app/src/main/java/com/example/cameraapp/MainActivity.kt:392 | one stamped fix is appended at the end of the location buffer |
| Recording.Recorder.OnLocationResult | CameraApp/app/src/main/java/com/example/cameraapp/MainActivity.kt:209-240 | while recording, every fix of the result is stamped and appended in order; while not recording nothing changes |
| Recording.Recorder.OnSessionLocationResult | CameraApp/app/src/main/java/com/example/cameraapp/MainActivity.kt:363-396 | every fix of the result is stamped and appended in order, whether or not recording is on |
| Recording.Recorder.CaptureFrameData | CameraApp/app/src/main/java/com/example/cameraapp/MainActivity.kt:679-705 | a frame holding copies of all four whole buffers, its number, its elapsed time and the date of start + elapsed is appended exactly when that snapshot holds a reading |
| Recording.Recorder.Tick | CameraApp/app/src/main/java/com/example/cameraapp/MainActivity.kt:656-676 | an unposted tick changes nothing; once recording has ended the tick stops re-posting; otherwise the counter becomes the floor-form estimate of now - start and at most one cumulative snapshot with that number is appended; frame times stay ordered under a clock that does not go back |
| Recording.Recorder.CounterTick | CameraApp/app/src/main/java/com/example/cameraapp/MainActivity.kt:445-456 | while recording the counter becomes the integer-form estimate and the runnable stays posted; otherwise it stops |
| Recording.Recorder.SaveSensorData | CameraApp/app/src/main/java/com/example/cameraapp/MainActivity.kt:479-545 | the outcome is the four non-empty sensor tables, in gyroscope, accelerometer, magnetometer, location order, written until the first failing write |
| Recording.Recorder.SaveFrameData | CameraApp/app/src/main/java/com/example/cameraapp/MainActivity.kt:707-751 | the frame file is the header plus one line per frame (header only when there are none), or nothing if its write fails |
| Recording.Recorder.RemoveCurrentRunnable | CameraApp/app/src/main/java/com/example/cameraapp/MainActivity.kt:464 | only the runnable held in frameCounterRunnable stops being posted; the other posted flag and all other fields are unchanged |
| Recording.Recorder.StopRecording | CameraApp/app/src/main/java/com/example/cameraapp/MainActivity.kt:459-477 | the runnable held in frameCounterRunnable is removed, isRecording is left as it was, and both the sensor export and the frame export of the current state are produced |

`Export.FindFile`, `Export.FindFileAppend` and `Export.FindFileInFour` are list-lookup helpers of the model used only to prove `Export.PendingSensorFilesPerStream`; they model no lookup of the source. `Csv.JoinAvoids`, `Export.FrameCellsCommaFree` and `Export.FrameLineCells` are likewise proof helpers, and `Summary.Min` and `Summary.Max` (smallest and largest reading of an axis) exist only to state `Summary.MeanWithinRange` and `Summary.SummaryMotionColumns`.

The client methods `Recording.AccelerometerMeanScenario`, `Recording.TickScenario` and `Recording.RestartScenario` replay three sessions against the contracts: three accelerometer readings averaging to 2.0 in frame 3, a frame row without a fix exporting zero coordinates, and a stop followed by a restart from empty buffers.

## Left out

- Camera binding, the MediaStore output and the video file (MainActivity.kt:291-326, :401-417). Only the Start and Finalize events are kept, as methods.
- Permissions, the GPS-settings dialog, `onCreate` wiring, the once-per-second test location poll and `showSavedFileLocations` (MainActivity.kt:130-198, :547-578, :757-826). These are UI and platform plumbing.
- Registering and unregistering sensor listeners and location requests (MainActivity.kt:266-289, :344-399, :466-472). Producers are method calls.
  - As a consequence, fixes from the callback registered by `startRecording` keep arriving after `stopRecording`: `locationListener` is never assigned, so nothing removes them.
  - Each new session registers one more such callback. The model does not track how many callbacks are registered.
  - Sensor listeners are unregistered by `stopRecording` (MainActivity.kt:467), so no reading arrives after it, yet `isRecording` stays true until Finalize. In that window the model's `OnSensorChanged` would still append a reading that the program never receives.
- The 33 ms `postDelayed` cadence. A tick is an explicit call with `now`, and the "posted" flags only record whether a runnable would run again.
- File-system effects: `mkdirs`, `FileOutputStream`, the bytes of a partially written file when a write throws. A table is the list of chunks written to it, and a failed file is not in the outcome.
- Toasts, `Log.d` lines, `TextView` text and `locationUpdatesCount`. They have no effect on the recorded data.
- `SimpleDateFormat` output and Kotlin `Float`/`Double` `toString`. They are opaque function values. The line round-trip lemmas assume only that they produce no comma.
- Floating point:
  - readings and means are `real`;
  - the `.average().toFloat()` rounding is not modelled;
  - the double-precision division in `floor(ms / (1000.0 / 30))` is read exactly.
- Records.NewSensorData: the source reads the clock twice, once for the relative and once for the absolute timestamp. The model reads it once, so relative = absolute - start holds exactly.
- Records.NewLocationData: the same single clock read as for sensor readings.
- FrameClock.FrameFormsAgree: holds only because the floating form is read over exact reals. In double arithmetic `1000.0 / 30` is 33.333333333333336, so at 500 ms `floor(500 / 33.333333333333336)` is 14 while `500 * 30 / 1000` is 15. The same happens at 900, 1000, 1700 and 1800 ms, among others. At such instants a sensor reading (MainActivity.kt:591) or a frame (:662) carries one frame less than a location fix stamped at the same time (:222, :377).
- FrameClock.FrameFloor: the double rounding above is not modelled; the model's floating form is the exact-real floor.
- FrameClock.FrameTrunc: the 64-bit overflow of `ms * 30` and the 32-bit `toInt()` wrap-around are not modelled. They need more than two years of elapsed time.
- methods/sensor_based.py, methods/camera_based_v1.py and methods/camera_based_v2.py: offline numeric analysis (pandas/numpy/OpenCV) and not part of the recorder.
