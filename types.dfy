/**
 * The entities of the building-monitoring dashboard: sensor readings, the batched telemetry
 * feed, building records, chart settings and debug-log entries.
 */
module Types {
  import opened Wrappers
  import opened Dict

  /** One 3-axis sample (`SensorReading`). A field the stored object lacks is None. */
  datatype Reading = Reading(x: Option<real>, y: Option<real>, z: Option<real>, timestamp: Option<int>)

  /** What a data point holds under a sensor key: an object (read as a reading) or anything else. */
  datatype SensorEntry = SensorObject(reading: Reading) | NotAnObject

  /** What a data point holds under a floor key: an object of sensor entries, or a non-object. */
  datatype FloorEntry = FloorObject(sensors: Dict<SensorEntry>) | NotAFloor

  /** One upload cycle (`DataPoint`): its timestamp (0 when the field is missing) and its floors. */
  datatype DataPoint = DataPoint(timestamp: int, floors: Dict<FloorEntry>)

  /** `dataPoint[floor]`: under "timestamp" sits the number, which is not an object. */
  function FloorAt(dp: DataPoint, floor: string): FloorEntry {
    if floor == "timestamp" then NotAFloor
    else match Get(dp.floors, floor)
      case Some(f) => f
      case None => NotAFloor
  }

  /** `BatchData`: batch id to the data points uploaded under it, in enumeration order. */
  type Feed = Dict<seq<DataPoint>>

  /**
   * A building as stored under `buildings/<id>` (`Omit<BuildingData, 'id'>`). The store keeps no
   * empty objects or arrays, so a missing field reads as the empty value; a missing name as "",
   * a missing time as 0.
   */
  datatype BuildingRecord = BuildingRecord(
    name: string,
    batchData: Feed,
    createdAt: int,
    lastUpdated: int,
    floors: seq<string>,
    sensorsPerFloor: Dict<seq<string>>)

  /** The record a path under a missing building starts from. */
  const EmptyRecord := BuildingRecord("", [], 0, 0, [], [])

  /** A building as the UI sees it (`BuildingData`): `{ id, ...record }`. */
  datatype Building = Building(id: string, record: BuildingRecord)

  /** The name the building behind the root feed gets when it has none. */
  const MainBuildingName := "ESP32 Main Building"

  /** The floor list and sensor layout every generated building gets. */
  const DefaultFloors: seq<string> := ["E1", "E2"]
  const DefaultSensorsPerFloor: Dict<seq<string>> := [("E1", ["M1", "M2"]), ("E2", ["S1", "S2"])]

  datatype ChartType = Line | Scatter

  datatype ChartConfig = ChartConfig(chartType: ChartType, showGrid: bool, animated: bool)

  datatype Level = Info | Warning | Error

  /** A debug-log entry (`DebugLog`); its opaque `data` payload is not modelled. */
  datatype DebugLog = DebugLog(id: string, timestamp: int, level: Level, message: string)

  /** `s.slice(-n)` for n > 0: the last n elements, or all of s when it is shorter. */
  function LastN<T>(s: seq<T>, n: nat): (r: seq<T>)
    ensures |r| == if |s| < n then |s| else n
    ensures r == s[|s| - |r|..]
  {
    if |s| <= n then s else s[|s| - n..]
  }
}
