/**
 * The records the recorder keeps (MainActivity.kt's `SensorData`,
 * `LocationData` and `FrameData` data classes) and how a reading is stamped
 * when it arrives. Kotlin `Float`/`Double` values are modelled as `real`,
 * `Long`/`Int` as `int`.
 */
module Records {
  import opened FrameClock

  /** One gyroscope, accelerometer or magnetometer reading. */
  datatype SensorData = SensorData(
    relativeTimestamp: int,
    absoluteTimestamp: int,
    formattedDate: string,
    estimatedFrame: int,
    x: real,
    y: real,
    z: real)

  /** One location fix as stored by the recorder. */
  datatype LocationData = LocationData(
    relativeTimestamp: int,
    absoluteTimestamp: int,
    formattedDate: string,
    estimatedFrame: int,
    latitude: real,
    longitude: real,
    altitude: real,
    accuracy: real,
    speed: real,
    bearing: real)

  /** A per-tick snapshot of every buffer. */
  datatype FrameData = FrameData(
    frameNumber: int,
    timestamp: int,
    absoluteTime: string,
    gyroData: seq<SensorData>,
    accelData: seq<SensorData>,
    magnetData: seq<SensorData>,
    locationData: seq<LocationData>)

  /** A snapshot worth keeping: at least one of its lists holds a reading. */
  predicate HasReadings(f: FrameData) {
    f.gyroData != [] || f.accelData != [] || f.magnetData != [] || f.locationData != []
  }

  /** The fields the callbacks read from an `android.location.Location`. */
  datatype Fix = Fix(latitude: real, longitude: real, altitude: real, accuracy: real, speed: real, bearing: real)

  /** `event.sensor.type`: the three types the recorder files, and any other. */
  datatype SensorType = Gyroscope | Accelerometer | MagneticField | Unlisted(code: int)

  /**
   * Text rendering the platform supplies: `SimpleDateFormat` with the pattern
   * "yyyy-MM-dd HH:mm:ss.SSS" (`date`) and "yyyyMMdd-HHmmss" (`fileStamp`),
   * and Kotlin's `Float.toString` and `Double.toString`.
   */
  datatype Formats = Formats(
    date: int -> string,
    fileStamp: int -> string,
    float: real -> string,
    double: real -> string)

  /** A sensor record built at `now` for a session that started at `start`. */
  predicate SensorStamped(d: SensorData, start: int, fmt: Formats) {
    && d.relativeTimestamp == d.absoluteTimestamp - start
    && d.formattedDate == fmt.date(d.absoluteTimestamp)
    && d.estimatedFrame == FrameFloor(d.relativeTimestamp)
  }

  /** A location record built for a session that started at `start` (integer frame form). */
  predicate LocationStamped(d: LocationData, start: int, fmt: Formats) {
    && d.relativeTimestamp == d.absoluteTimestamp - start
    && d.formattedDate == fmt.date(d.absoluteTimestamp)
    && d.estimatedFrame == FrameTrunc(d.relativeTimestamp)
  }

  /** The record `onSensorChanged` builds from a reading (x, y, z) arriving at `now`. */
  function NewSensorData(start: int, now: int, fmt: Formats, x: real, y: real, z: real): (d: SensorData)
    ensures SensorStamped(d, start, fmt) && d.absoluteTimestamp == now
    ensures d.x == x && d.y == y && d.z == z
  {
    var relative := now - start;
    SensorData(relative, now, fmt.date(now), FrameFloor(relative), x, y, z)
  }

  /** The record a location callback builds from a fix arriving at `now`. */
  function NewLocationData(start: int, now: int, fmt: Formats, fix: Fix): (d: LocationData)
    ensures LocationStamped(d, start, fmt) && d.absoluteTimestamp == now
    ensures d.latitude == fix.latitude && d.longitude == fix.longitude && d.altitude == fix.altitude
    ensures d.accuracy == fix.accuracy && d.speed == fix.speed && d.bearing == fix.bearing
  {
    var relative := now - start;
    LocationData(relative, now, fmt.date(now), FrameTrunc(relative),
                 fix.latitude, fix.longitude, fix.altitude, fix.accuracy, fix.speed, fix.bearing)
  }

  /** The records one location result yields, fix `i` read at `clock[i]`. */
  function LocationRecords(start: int, fmt: Formats, fixes: seq<Fix>, clock: seq<int>): (r: seq<LocationData>)
    requires |clock| == |fixes|
    ensures |r| == |fixes|
    ensures forall i :: 0 <= i < |r| ==> r[i] == NewLocationData(start, clock[i], fmt, fixes[i])
  {
    seq(|fixes|, i requires 0 <= i < |fixes| => NewLocationData(start, clock[i], fmt, fixes[i]))
  }
}
