/**
 * The per-frame summary `saveFrameData` computes from one snapshot: the mean
 * of each axis of each motion sensor (0 when that snapshot is empty) and the
 * latitude, longitude and altitude of the last location fix (0.0 when there
 * is none).
 */
module Summary {
  import opened Wrappers
  import opened Records

  function Sum(xs: seq<real>): real {
    if xs == [] then 0.0 else Sum(xs[..|xs| - 1]) + xs[|xs| - 1]
  }

  /** `if (list.isNotEmpty()) list.average() else 0`. */
  function Mean(xs: seq<real>): (m: real)
    ensures xs == [] ==> m == 0.0
  {
    if xs == [] then 0.0 else Sum(xs) / (|xs| as real)
  }

  /** A sum of values between `lo` and `hi` lies between |xs|*lo and |xs|*hi. */
  lemma {:induction false} SumBounds(xs: seq<real>, lo: real, hi: real)
    requires forall i :: 0 <= i < |xs| ==> lo <= xs[i] <= hi
    ensures (|xs| as real) * lo <= Sum(xs) <= (|xs| as real) * hi
  {
    if xs != [] {
      SumBounds(xs[..|xs| - 1], lo, hi);
    }
  }

  /** A mean lies between any lower and upper bound of its values. */
  lemma MeanBounds(xs: seq<real>, lo: real, hi: real)
    requires xs != []
    requires forall i :: 0 <= i < |xs| ==> lo <= xs[i] <= hi
    ensures lo <= Mean(xs) <= hi
  {
    SumBounds(xs, lo, hi);
    var n := |xs| as real;
    assert n * lo <= Sum(xs) <= n * hi;
    assert Sum(xs) / n >= lo by {
      assert Sum(xs) / n * n == Sum(xs);
    }
    assert Sum(xs) / n <= hi by {
      assert Sum(xs) / n * n == Sum(xs);
    }
  }

  /** Readings that all agree average to that reading. */
  lemma MeanOfEqualValues(xs: seq<real>, c: real)
    requires xs != []
    requires forall i :: 0 <= i < |xs| ==> xs[i] == c
    ensures Mean(xs) == c
  {
    MeanBounds(xs, c, c);
  }

  /** The x values 1.0, 2.0 and 3.0 average to 2.0. */
  lemma MeanExample()
    ensures Mean([1.0, 2.0, 3.0]) == 2.0
  {
    assert [1.0, 2.0, 3.0][..2] == [1.0, 2.0];
    assert [1.0, 2.0][..1] == [1.0];
    assert [1.0][..0] == [];
  }

  /** `map { it.x }` and friends: one axis of a list of readings. */
  function Xs(s: seq<SensorData>): (r: seq<real>)
    ensures |r| == |s| && forall i :: 0 <= i < |s| ==> r[i] == s[i].x
  {
    seq(|s|, i requires 0 <= i < |s| => s[i].x)
  }

  function Ys(s: seq<SensorData>): (r: seq<real>)
    ensures |r| == |s| && forall i :: 0 <= i < |s| ==> r[i] == s[i].y
  {
    seq(|s|, i requires 0 <= i < |s| => s[i].y)
  }

  function Zs(s: seq<SensorData>): (r: seq<real>)
    ensures |r| == |s| && forall i :: 0 <= i < |s| ==> r[i] == s[i].z
  {
    seq(|s|, i requires 0 <= i < |s| => s[i].z)
  }

  /** The numeric content of one FrameData CSV line, in column order. */
  datatype FrameRow = FrameRow(
    frame: int,
    timestampMs: int,
    absoluteTime: string,
    gyroX: real, gyroY: real, gyroZ: real,
    accelX: real, accelY: real, accelZ: real,
    magnetX: real, magnetY: real, magnetZ: real,
    latitude: real, longitude: real, altitude: real)

  /**
   * What `saveFrameData` computes for one frame before rendering it. The
   * frame's number, time and date are copied; the location columns are the
   * most recent fix of the snapshot, or zeros for a snapshot without fixes
   * (so a session without any fix exports zeros on every row).
   */
  function Summarize(f: FrameData): (r: FrameRow)
    ensures r.frame == f.frameNumber && r.timestampMs == f.timestamp && r.absoluteTime == f.absoluteTime
    ensures f.locationData == [] ==> r.latitude == 0.0 && r.longitude == 0.0 && r.altitude == 0.0
    ensures f.locationData != [] ==>
      var last := f.locationData[|f.locationData| - 1];
      r.latitude == last.latitude && r.longitude == last.longitude && r.altitude == last.altitude
  {
    var fixes := f.locationData;
    var last := if fixes == [] then None else Some(fixes[|fixes| - 1]);
    FrameRow(
      f.frameNumber, f.timestamp, f.absoluteTime,
      Mean(Xs(f.gyroData)), Mean(Ys(f.gyroData)), Mean(Zs(f.gyroData)),
      Mean(Xs(f.accelData)), Mean(Ys(f.accelData)), Mean(Zs(f.accelData)),
      Mean(Xs(f.magnetData)), Mean(Ys(f.magnetData)), Mean(Zs(f.magnetData)),
      if last.Some? then last.value.latitude else 0.0,
      if last.Some? then last.value.longitude else 0.0,
      if last.Some? then last.value.altitude else 0.0)
  }

  /** The smallest value of a non-empty list. */
  function Min(xs: seq<real>): (m: real)
    requires xs != []
    ensures (forall i :: 0 <= i < |xs| ==> m <= xs[i]) && m in xs
  {
    if |xs| == 1 then xs[0]
    else
      var rest := Min(xs[..|xs| - 1]);
      if xs[|xs| - 1] < rest then xs[|xs| - 1] else rest
  }

  /** The largest value of a non-empty list. */
  function Max(xs: seq<real>): (m: real)
    requires xs != []
    ensures (forall i :: 0 <= i < |xs| ==> xs[i] <= m) && m in xs
  {
    if |xs| == 1 then xs[0]
    else
      var rest := Max(xs[..|xs| - 1]);
      if xs[|xs| - 1] > rest then xs[|xs| - 1] else rest
  }

  /** A non-empty list's mean lies between its smallest and its largest value. */
  lemma MeanWithinRange(xs: seq<real>)
    requires xs != []
    ensures Min(xs) <= Mean(xs) <= Max(xs)
  {
    MeanBounds(xs, Min(xs), Max(xs));
  }

  /**
   * Each motion column of a frame row is a true average of its own axis of
   * its own sensor's snapshot: 0 when that snapshot is empty, otherwise
   * between the smallest and the largest reading on that axis.
   */
  lemma SummaryMotionColumns(f: FrameData)
    ensures var r := Summarize(f);
      && (f.gyroData == [] ==> r.gyroX == 0.0 && r.gyroY == 0.0 && r.gyroZ == 0.0)
      && (f.gyroData != [] ==>
            && Min(Xs(f.gyroData)) <= r.gyroX <= Max(Xs(f.gyroData))
            && Min(Ys(f.gyroData)) <= r.gyroY <= Max(Ys(f.gyroData))
            && Min(Zs(f.gyroData)) <= r.gyroZ <= Max(Zs(f.gyroData)))
      && (f.accelData == [] ==> r.accelX == 0.0 && r.accelY == 0.0 && r.accelZ == 0.0)
      && (f.accelData != [] ==>
            && Min(Xs(f.accelData)) <= r.accelX <= Max(Xs(f.accelData))
            && Min(Ys(f.accelData)) <= r.accelY <= Max(Ys(f.accelData))
            && Min(Zs(f.accelData)) <= r.accelZ <= Max(Zs(f.accelData)))
      && (f.magnetData == [] ==> r.magnetX == 0.0 && r.magnetY == 0.0 && r.magnetZ == 0.0)
      && (f.magnetData != [] ==>
            && Min(Xs(f.magnetData)) <= r.magnetX <= Max(Xs(f.magnetData))
            && Min(Ys(f.magnetData)) <= r.magnetY <= Max(Ys(f.magnetData))
            && Min(Zs(f.magnetData)) <= r.magnetZ <= Max(Zs(f.magnetData)))
  {
    if f.gyroData != [] {
      MeanWithinRange(Xs(f.gyroData));
      MeanWithinRange(Ys(f.gyroData));
      MeanWithinRange(Zs(f.gyroData));
    }
    if f.accelData != [] {
      MeanWithinRange(Xs(f.accelData));
      MeanWithinRange(Ys(f.accelData));
      MeanWithinRange(Zs(f.accelData));
    }
    if f.magnetData != [] {
      MeanWithinRange(Xs(f.magnetData));
      MeanWithinRange(Ys(f.magnetData));
      MeanWithinRange(Zs(f.magnetData));
    }
  }
}
