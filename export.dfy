/**
 * `saveSensorData` and `saveFrameData` with the file system abstracted: a
 * table is the sequence of text chunks written to one file (the header, then
 * one line per record, each ending in '\n'), and a write that throws is
 * modelled by naming the paths whose write fails.
 */
module Export {
  import opened Wrappers
  import opened Csv
  import opened Records
  import opened Summary

  const SensorHeader: string := "relative_timestamp,absolute_timestamp,formatted_date,estimated_frame,x,y,z\n"
  const LocationHeader: string :=
    "relative_timestamp,absolute_timestamp,formatted_date,estimated_frame,latitude,longitude,altitude,accuracy,speed,bearing\n"
  const FrameHeader: string :=
    "frame,timestamp_ms,absolute_time,gyro_x,gyro_y,gyro_z,accel_x,accel_y,accel_z,magnet_x,magnet_y,magnet_z,latitude,longitude,altitude\n"

  /** The date and number renderings never produce a line break. */
  ghost predicate NewlineFree(fmt: Formats) {
    && (forall t :: '\n' !in fmt.date(t))
    && (forall v :: '\n' !in fmt.float(v))
    && (forall v :: '\n' !in fmt.double(v))
  }

  /** The cells of a gyroscope, accelerometer or magnetometer line, in column order. */
  function SensorCells(d: SensorData, fmt: Formats): seq<string> {
    [IntString(d.relativeTimestamp), IntString(d.absoluteTimestamp), Quote(d.formattedDate),
     IntString(d.estimatedFrame), fmt.float(d.x), fmt.float(d.y), fmt.float(d.z)]
  }

  /** One record, one line: the only line break is the one that ends it. */
  function SensorLine(d: SensorData, fmt: Formats): (line: string)
    ensures |line| > 0 && line[|line| - 1] == '\n'
  {
    Join(SensorCells(d, fmt)) + "\n"
  }

  /** The cells of a location line: Double coordinates, then Float accuracy, speed and bearing. */
  function LocationCells(d: LocationData, fmt: Formats): seq<string> {
    [IntString(d.relativeTimestamp), IntString(d.absoluteTimestamp), Quote(d.formattedDate),
     IntString(d.estimatedFrame), fmt.double(d.latitude), fmt.double(d.longitude), fmt.double(d.altitude),
     fmt.float(d.accuracy), fmt.float(d.speed), fmt.float(d.bearing)]
  }

  function LocationLine(d: LocationData, fmt: Formats): (line: string)
    ensures |line| > 0 && line[|line| - 1] == '\n'
  {
    Join(LocationCells(d, fmt)) + "\n"
  }

  /** The cells of a FrameData line: Float means, then Double coordinates. */
  function FrameCells(r: FrameRow, fmt: Formats): seq<string> {
    [IntString(r.frame), IntString(r.timestampMs), Quote(r.absoluteTime),
     fmt.float(r.gyroX), fmt.float(r.gyroY), fmt.float(r.gyroZ),
     fmt.float(r.accelX), fmt.float(r.accelY), fmt.float(r.accelZ),
     fmt.float(r.magnetX), fmt.float(r.magnetY), fmt.float(r.magnetZ),
     fmt.double(r.latitude), fmt.double(r.longitude), fmt.double(r.altitude)]
  }

  function FrameLine(f: FrameData, fmt: Formats): (line: string)
    ensures |line| > 0 && line[|line| - 1] == '\n'
  {
    Join(FrameCells(Summarize(f), fmt)) + "\n"
  }

  /**
   * What every save writes to its file: the header, then exactly one rendered
   * line per item, in item order.
   */
  function Table<T>(header: string, items: seq<T>, render: T -> string): (t: seq<string>)
    ensures |t| == |items| + 1 && t[0] == header
    ensures forall i :: 0 <= i < |items| ==> t[i + 1] == render(items[i])
  {
    [header] + seq(|items|, i requires 0 <= i < |items| => render(items[i]))
  }

  /** The loop every save runs, line by line. */
  method WriteTable<T>(header: string, items: seq<T>, render: T -> string) returns (lines: seq<string>)
    ensures lines == Table(header, items, render)
  {
    lines := [header];
    var i := 0;
    while i < |items|
      invariant 0 <= i <= |items|
      invariant |lines| == i + 1 && lines[0] == header
      invariant forall j :: 0 <= j < i ==> lines[j + 1] == render(items[j])
    {
      lines := lines + [render(items[i])];
      i := i + 1;
    }
  }

  function SensorRender(fmt: Formats): SensorData -> string {
    d => SensorLine(d, fmt)
  }

  function LocationRender(fmt: Formats): LocationData -> string {
    d => LocationLine(d, fmt)
  }

  function FrameRender(fmt: Formats): FrameData -> string {
    f => FrameLine(f, fmt)
  }

  /** A sensor table: its header, then one line per reading in arrival order. */
  function SensorTable(buf: seq<SensorData>, fmt: Formats): (t: seq<string>)
    ensures |t| == |buf| + 1 && t[0] == SensorHeader
    ensures forall i :: 0 <= i < |buf| ==> t[i + 1] == SensorLine(buf[i], fmt)
  {
    Table(SensorHeader, buf, SensorRender(fmt))
  }

  function LocationTable(buf: seq<LocationData>, fmt: Formats): (t: seq<string>)
    ensures |t| == |buf| + 1 && t[0] == LocationHeader
    ensures forall i :: 0 <= i < |buf| ==> t[i + 1] == LocationLine(buf[i], fmt)
  {
    Table(LocationHeader, buf, LocationRender(fmt))
  }

  function FrameTable(frames: seq<FrameData>, fmt: Formats): (t: seq<string>)
    ensures |t| == |frames| + 1 && t[0] == FrameHeader
    ensures forall i :: 0 <= i < |frames| ==> t[i + 1] == FrameLine(frames[i], fmt)
  {
    Table(FrameHeader, frames, FrameRender(fmt))
  }

  /** The date and number renderings never produce a comma. */
  ghost predicate CommaFree(fmt: Formats) {
    && (forall t :: ',' !in fmt.date(t))
    && (forall v :: ',' !in fmt.float(v))
    && (forall v :: ',' !in fmt.double(v))
  }

  /** Reading a written line back: drop its '\n' and cut it at the commas. */
  function Cells(line: string): seq<string> {
    Split(if |line| > 0 && line[|line| - 1] == '\n' then line[..|line| - 1] else line)
  }

  lemma LineCells(cells: seq<string>)
    requires |cells| > 0
    requires forall i :: 0 <= i < |cells| ==> ',' !in cells[i]
    ensures Cells(Join(cells) + "\n") == cells
  {
    var line := Join(cells) + "\n";
    assert line[..|line| - 1] == Join(cells);
    SplitJoin(cells);
  }

  /**
   * A sensor line holds the record's fields in declared order: the integer
   * fields read back as the record's values, the date is quoted, and x, y, z
   * follow.
   */
  lemma SensorLineRoundTrip(d: SensorData, fmt: Formats)
    requires CommaFree(fmt) && ',' !in d.formattedDate
    ensures var cells := Cells(SensorLine(d, fmt));
      && |cells| == 7
      && ParseInt(cells[0]) == Some(d.relativeTimestamp)
      && ParseInt(cells[1]) == Some(d.absoluteTimestamp)
      && cells[2] == Quote(d.formattedDate)
      && ParseInt(cells[3]) == Some(d.estimatedFrame)
      && cells[4..] == [fmt.float(d.x), fmt.float(d.y), fmt.float(d.z)]
  {
    var cells := SensorCells(d, fmt);
    assert ',' !in Quote(d.formattedDate);
    assert ',' !in cells[4] && ',' !in cells[5] && ',' !in cells[6];
    LineCells(cells);
    IntStringRoundTrip(d.relativeTimestamp);
    IntStringRoundTrip(d.absoluteTimestamp);
    IntStringRoundTrip(d.estimatedFrame);
  }

  /** A location line holds the fix's fields in declared order. */
  lemma LocationLineRoundTrip(d: LocationData, fmt: Formats)
    requires CommaFree(fmt) && ',' !in d.formattedDate
    ensures var cells := Cells(LocationLine(d, fmt));
      && |cells| == 10
      && ParseInt(cells[0]) == Some(d.relativeTimestamp)
      && ParseInt(cells[1]) == Some(d.absoluteTimestamp)
      && cells[2] == Quote(d.formattedDate)
      && ParseInt(cells[3]) == Some(d.estimatedFrame)
      && cells[4..] == [fmt.double(d.latitude), fmt.double(d.longitude), fmt.double(d.altitude),
                        fmt.float(d.accuracy), fmt.float(d.speed), fmt.float(d.bearing)]
  {
    var cells := LocationCells(d, fmt);
    assert ',' !in Quote(d.formattedDate);
    assert ',' !in cells[4] && ',' !in cells[5] && ',' !in cells[6];
    assert ',' !in cells[7] && ',' !in cells[8] && ',' !in cells[9];
    LineCells(cells);
    IntStringRoundTrip(d.relativeTimestamp);
    IntStringRoundTrip(d.absoluteTimestamp);
    IntStringRoundTrip(d.estimatedFrame);
  }

  lemma FrameCellsCommaFree(r: FrameRow, fmt: Formats)
    requires CommaFree(fmt) && ',' !in r.absoluteTime
    ensures forall i :: 0 <= i < |FrameCells(r, fmt)| ==> ',' !in FrameCells(r, fmt)[i]
  {
    var cells := FrameCells(r, fmt);
    assert ',' !in Quote(r.absoluteTime);
    assert forall v :: ',' !in fmt.float(v) && ',' !in fmt.double(v);
  }

  /** A FrameData line reads back as exactly the cells of the frame's summary. */
  lemma FrameLineCells(f: FrameData, fmt: Formats)
    requires CommaFree(fmt) && ',' !in f.absoluteTime
    ensures Cells(FrameLine(f, fmt)) == FrameCells(Summarize(f), fmt)
  {
    var r := Summarize(f);
    var cells := FrameCells(r, fmt);
    FrameCellsCommaFree(r, fmt);
    assert FrameLine(f, fmt) == Join(cells) + "\n";
    LineCells(cells);
  }

  /**
   * A FrameData line: frame number and elapsed milliseconds read back, the
   * quoted time, the nine axis means of the snapshot, then the last fix's
   * coordinates (zeros when the snapshot has no fix).
   */
  lemma FrameLineRoundTrip(f: FrameData, fmt: Formats)
    requires CommaFree(fmt) && ',' !in f.absoluteTime
    ensures var cells := Cells(FrameLine(f, fmt));
      var last := if f.locationData == [] then None else Some(f.locationData[|f.locationData| - 1]);
      && |cells| == 15
      && ParseInt(cells[0]) == Some(f.frameNumber)
      && ParseInt(cells[1]) == Some(f.timestamp)
      && cells[2] == Quote(f.absoluteTime)
      && cells[3..6] == [fmt.float(Mean(Xs(f.gyroData))), fmt.float(Mean(Ys(f.gyroData))), fmt.float(Mean(Zs(f.gyroData)))]
      && cells[6..9] == [fmt.float(Mean(Xs(f.accelData))), fmt.float(Mean(Ys(f.accelData))), fmt.float(Mean(Zs(f.accelData)))]
      && cells[9..12] == [fmt.float(Mean(Xs(f.magnetData))), fmt.float(Mean(Ys(f.magnetData))), fmt.float(Mean(Zs(f.magnetData)))]
      && cells[12] == fmt.double(if last.Some? then last.value.latitude else 0.0)
      && cells[13] == fmt.double(if last.Some? then last.value.longitude else 0.0)
      && cells[14] == fmt.double(if last.Some? then last.value.altitude else 0.0)
  {
    FrameLineCells(f, fmt);
    var r := Summarize(f);
    var cells := FrameCells(r, fmt);
    assert cells[3..6] == [fmt.float(r.gyroX), fmt.float(r.gyroY), fmt.float(r.gyroZ)];
    assert cells[6..9] == [fmt.float(r.accelX), fmt.float(r.accelY), fmt.float(r.accelZ)];
    assert cells[9..12] == [fmt.float(r.magnetX), fmt.float(r.magnetY), fmt.float(r.magnetZ)];
    IntStringRoundTrip(f.frameNumber);
    IntStringRoundTrip(f.timestamp);
  }

  /** One record, one line: a sensor line's only line break is the one that ends it. */
  lemma SensorLineIsOneLine(d: SensorData, fmt: Formats)
    requires NewlineFree(fmt) && '\n' !in d.formattedDate
    ensures var line := SensorLine(d, fmt); '\n' !in line[..|line| - 1]
  {
    var cells := SensorCells(d, fmt);
    JoinAvoids(cells, '\n');
    assert (Join(cells) + "\n")[..|Join(cells)|] == Join(cells);
  }

  lemma LocationLineIsOneLine(d: LocationData, fmt: Formats)
    requires NewlineFree(fmt) && '\n' !in d.formattedDate
    ensures var line := LocationLine(d, fmt); '\n' !in line[..|line| - 1]
  {
    var cells := LocationCells(d, fmt);
    JoinAvoids(cells, '\n');
    assert (Join(cells) + "\n")[..|Join(cells)|] == Join(cells);
  }

  lemma FrameLineIsOneLine(f: FrameData, fmt: Formats)
    requires NewlineFree(fmt) && '\n' !in f.absoluteTime
    ensures var line := FrameLine(f, fmt); '\n' !in line[..|line| - 1]
  {
    var r := Summarize(f);
    var cells := FrameCells(r, fmt);
    assert '\n' !in Quote(r.absoluteTime);
    assert forall v :: '\n' !in fmt.float(v) && '\n' !in fmt.double(v);
    JoinAvoids(cells, '\n');
    assert (Join(cells) + "\n")[..|Join(cells)|] == Join(cells);
  }

  /** One output file: its path under the app's external files directory, and what was written to it. */
  datatype CsvFile = CsvFile(path: string, lines: seq<string>)

  /** "SensorData/<Kind>-<yyyyMMdd-HHmmss>.csv", stamped with the session start. */
  function SensorFilePath(kind: string, stamp: string): string {
    "SensorData/" + kind + "-" + stamp + ".csv"
  }

  function FrameFilePath(stamp: string): string {
    "FrameData/FrameData-" + stamp + ".csv"
  }

  /**
   * The sensor files `saveSensorData` sets out to write, in its order,
   * skipping empty buffers: nothing at all for a session without readings,
   * and never a table that holds only its header.
   */
  function PendingSensorFiles(gyro: seq<SensorData>, accel: seq<SensorData>, magnet: seq<SensorData>,
                              fixes: seq<LocationData>, stamp: string, fmt: Formats): (p: seq<CsvFile>)
    ensures |p| <= 4
    ensures p == [] <==> gyro == [] && accel == [] && magnet == [] && fixes == []
    ensures forall i :: 0 <= i < |p| ==> |p[i].lines| >= 2
  {
    (if |gyro| > 0 then [CsvFile(SensorFilePath("Gyroscope", stamp), SensorTable(gyro, fmt))] else [])
    + (if |accel| > 0 then [CsvFile(SensorFilePath("Accelerometer", stamp), SensorTable(accel, fmt))] else [])
    + (if |magnet| > 0 then [CsvFile(SensorFilePath("Magnetometer", stamp), SensorTable(magnet, fmt))] else [])
    + (if |fixes| > 0 then [CsvFile(SensorFilePath("Location", stamp), LocationTable(fixes, fmt))] else [])
  }

  /** One stream's part of `saveSensorData`: its table file, or nothing when its buffer is empty. */
  method WriteSensorFile(kind: string, stamp: string, buf: seq<SensorData>, fmt: Formats) returns (files: seq<CsvFile>)
    ensures files == if |buf| > 0 then [CsvFile(SensorFilePath(kind, stamp), SensorTable(buf, fmt))] else []
  {
    files := [];
    if |buf| > 0 {
      var lines := WriteTable(SensorHeader, buf, SensorRender(fmt));
      files := [CsvFile(SensorFilePath(kind, stamp), lines)];
    }
  }

  method WriteLocationFile(stamp: string, buf: seq<LocationData>, fmt: Formats) returns (files: seq<CsvFile>)
    ensures files == if |buf| > 0 then [CsvFile(SensorFilePath("Location", stamp), LocationTable(buf, fmt))] else []
  {
    files := [];
    if |buf| > 0 {
      var lines := WriteTable(LocationHeader, buf, LocationRender(fmt));
      files := [CsvFile(SensorFilePath("Location", stamp), lines)];
    }
  }

  /** The body of `saveFrameData`: the frame table, unless its write throws. */
  method WriteFrameFile(stamp: string, frames: seq<FrameData>, fmt: Formats, failing: set<string>) returns (file: Option<CsvFile>)
    ensures file == FrameExport(frames, stamp, fmt, failing)
  {
    var path := FrameFilePath(stamp);
    if path in failing {
      return None;
    }
    var lines := WriteTable(FrameHeader, frames, FrameRender(fmt));
    file := Some(CsvFile(path, lines));
  }

  /** The first file of `files` written to `path`, if any. */
  function FindFile(files: seq<CsvFile>, path: string): Option<CsvFile> {
    if files == [] then None
    else if files[0].path == path then Some(files[0])
    else FindFile(files[1..], path)
  }

  lemma {:induction false} FindFileAppend(a: seq<CsvFile>, b: seq<CsvFile>, path: string)
    ensures FindFile(a + b, path) == if FindFile(a, path).Some? then FindFile(a, path) else FindFile(b, path)
  {
    if a == [] {
      assert a + b == b;
    } else {
      assert (a + b)[0] == a[0] && (a + b)[1..] == a[1..] + b;
      FindFileAppend(a[1..], b, path);
    }
  }

  lemma FindFileInFour(g: seq<CsvFile>, a: seq<CsvFile>, m: seq<CsvFile>, l: seq<CsvFile>, path: string)
    ensures FindFile(g + (a + (m + l)), path)
      == if FindFile(g, path).Some? then FindFile(g, path)
         else if FindFile(a, path).Some? then FindFile(a, path)
         else if FindFile(m, path).Some? then FindFile(m, path)
         else FindFile(l, path)
  {
    FindFileAppend(m, l, path);
    FindFileAppend(a, m + l, path);
    FindFileAppend(g, a + (m + l), path);
  }

  /** Sensor file paths of kinds with different initials are different. */
  lemma SensorPathsDiffer(k1: string, k2: string, stamp: string)
    requires |k1| > 0 && |k2| > 0 && k1[0] != k2[0]
    ensures SensorFilePath(k1, stamp) != SensorFilePath(k2, stamp)
  {
    assert SensorFilePath(k1, stamp)[11] == k1[0];
    assert SensorFilePath(k2, stamp)[11] == k2[0];
  }

  /**
   * Each stream gets a file exactly when its buffer is non-empty, and that
   * file is the stream's header followed by one line per record.
   */
  lemma PendingSensorFilesPerStream(gyro: seq<SensorData>, accel: seq<SensorData>, magnet: seq<SensorData>,
                                    fixes: seq<LocationData>, stamp: string, fmt: Formats)
    ensures var p := PendingSensorFiles(gyro, accel, magnet, fixes, stamp, fmt);
      && FindFile(p, SensorFilePath("Gyroscope", stamp))
         == (if |gyro| > 0 then Some(CsvFile(SensorFilePath("Gyroscope", stamp), SensorTable(gyro, fmt))) else None)
      && FindFile(p, SensorFilePath("Accelerometer", stamp))
         == (if |accel| > 0 then Some(CsvFile(SensorFilePath("Accelerometer", stamp), SensorTable(accel, fmt))) else None)
      && FindFile(p, SensorFilePath("Magnetometer", stamp))
         == (if |magnet| > 0 then Some(CsvFile(SensorFilePath("Magnetometer", stamp), SensorTable(magnet, fmt))) else None)
      && FindFile(p, SensorFilePath("Location", stamp))
         == (if |fixes| > 0 then Some(CsvFile(SensorFilePath("Location", stamp), LocationTable(fixes, fmt))) else None)
  {
    var kinds := ["Gyroscope", "Accelerometer", "Magnetometer", "Location"];
    forall i, j | 0 <= i < 4 && 0 <= j < 4 && i != j
      ensures SensorFilePath(kinds[i], stamp) != SensorFilePath(kinds[j], stamp)
    {
      SensorPathsDiffer(kinds[i], kinds[j], stamp);
    }
    var g := if |gyro| > 0 then [CsvFile(SensorFilePath("Gyroscope", stamp), SensorTable(gyro, fmt))] else [];
    var a := if |accel| > 0 then [CsvFile(SensorFilePath("Accelerometer", stamp), SensorTable(accel, fmt))] else [];
    var m := if |magnet| > 0 then [CsvFile(SensorFilePath("Magnetometer", stamp), SensorTable(magnet, fmt))] else [];
    var l := if |fixes| > 0 then [CsvFile(SensorFilePath("Location", stamp), LocationTable(fixes, fmt))] else [];
    assert PendingSensorFiles(gyro, accel, magnet, fixes, stamp, fmt) == g + (a + (m + l));
    FindFileInFour(g, a, m, l, SensorFilePath("Gyroscope", stamp));
    FindFileInFour(g, a, m, l, SensorFilePath("Accelerometer", stamp));
    FindFileInFour(g, a, m, l, SensorFilePath("Magnetometer", stamp));
    FindFileInFour(g, a, m, l, SensorFilePath("Location", stamp));
  }

  /** What one save attempt produced: the files written, and the path whose write threw, if any. */
  datatype SaveOutcome = SaveOutcome(written: seq<CsvFile>, failed: Option<string>)

  /**
   * Writing files one after another inside a single `try`: the first write
   * that throws ends the attempt, and no later file is tried.
   */
  function WriteUntilFailure(pending: seq<CsvFile>, failing: set<string>): (out: SaveOutcome)
    ensures |out.written| <= |pending| && out.written == pending[..|out.written|]
    ensures forall j :: 0 <= j < |out.written| ==> pending[j].path !in failing
    ensures out.failed.None? ==> out.written == pending
    ensures out.failed.Some? ==>
      |out.written| < |pending| && out.failed.value == pending[|out.written|].path && out.failed.value in failing
  {
    if pending == [] then SaveOutcome([], None)
    else if pending[0].path in failing then SaveOutcome([], Some(pending[0].path))
    else
      var rest := WriteUntilFailure(pending[1..], failing);
      SaveOutcome([pending[0]] + rest.written, rest.failed)
  }

  method WriteFiles(pending: seq<CsvFile>, failing: set<string>) returns (out: SaveOutcome)
    ensures out == WriteUntilFailure(pending, failing)
  {
    var written: seq<CsvFile> := [];
    var i := 0;
    while i < |pending|
      invariant 0 <= i <= |pending|
      invariant written == pending[..i]
      invariant forall j :: 0 <= j < i ==> pending[j].path !in failing
    {
      if pending[i].path in failing {
        out := SaveOutcome(written, Some(pending[i].path));
        return;
      }
      written := written + [pending[i]];
      i := i + 1;
    }
    out := SaveOutcome(written, None);
    assert written == pending;
  }

  /**
   * `saveSensorData` as a value: its four tables written in order until one
   * write throws. It reports a failure exactly when one of the pending paths
   * fails, and otherwise every pending table is written.
   */
  function SensorExport(gyro: seq<SensorData>, accel: seq<SensorData>, magnet: seq<SensorData>,
                        fixes: seq<LocationData>, stamp: string, fmt: Formats, failing: set<string>): (out: SaveOutcome)
    ensures var p := PendingSensorFiles(gyro, accel, magnet, fixes, stamp, fmt);
      && out.written <= p
      && (forall j :: 0 <= j < |out.written| ==> p[j].path !in failing)
      && (out.failed.None? <==> forall i :: 0 <= i < |p| ==> p[i].path !in failing)
      && (out.failed.None? ==> out.written == p)
      && (out.failed.Some? ==>
            |out.written| < |p| && out.failed.value == p[|out.written|].path && out.failed.value in failing)
  {
    WriteUntilFailure(PendingSensorFiles(gyro, accel, magnet, fixes, stamp, fmt), failing)
  }

  /** `saveFrameData` as a value: always the header, even for no frames; nothing if the write throws. */
  function FrameExport(frames: seq<FrameData>, stamp: string, fmt: Formats, failing: set<string>): (r: Option<CsvFile>)
    ensures r.None? <==> FrameFilePath(stamp) in failing
    ensures r.Some? ==> r.value.path == FrameFilePath(stamp) && |r.value.lines| == |frames| + 1 && r.value.lines[0] == FrameHeader
    ensures r.Some? ==> forall i :: 0 <= i < |frames| ==> r.value.lines[i + 1] == FrameLine(frames[i], fmt)
  {
    var path := FrameFilePath(stamp);
    if path in failing then None else Some(CsvFile(path, FrameTable(frames, fmt)))
  }
}
