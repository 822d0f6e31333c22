/**
 * The building card's computations: per-sensor history extraction from a building's batched
 * feed, the per-sensor chart settings, and the building statistics.
 */
module BuildingCard {
  import opened Wrappers
  import opened Dict
  import opened Types
  import opened StableSort

  /** How many of the newest readings a chart shows. */
  const HistoryWindow := 100

  // ------------------------------------------------------------------
  // Sensor history extraction

  /**
   * The reading one data point contributes for (floor, sensor): the floor entry must be an
   * object, the point's timestamp truthy, and the sensor entry an object with an `x` field;
   * the point's timestamp replaces the entry's own.
   */
  function ReadingOf(dp: DataPoint, floor: string, sensor: string): Option<Reading> {
    match FloorAt(dp, floor)
    case NotAFloor => None
    case FloorObject(sensors) =>
      if dp.timestamp == 0 then None
      else
        var entry := Get(sensors, sensor);
        if entry.Some? && entry.value.SensorObject? && entry.value.reading.x.Some?
        then Some(entry.value.reading.(timestamp := Some(dp.timestamp)))
        else None
  }

  function AsSeq<T>(o: Option<T>): seq<T> {
    match o case Some(v) => [v] case None => []
  }

  /** The readings a batch contributes, in data-point order. */
  function PointReadings(points: seq<DataPoint>, floor: string, sensor: string): seq<Reading>
    decreases |points|
  {
    if points == [] then []
    else PointReadings(points[..|points| - 1], floor, sensor) + AsSeq(ReadingOf(points[|points| - 1], floor, sensor))
  }

  /** The readings all batches contribute, batches in enumeration order. */
  function BatchReadings(batches: seq<seq<DataPoint>>, floor: string, sensor: string): seq<Reading>
    decreases |batches|
  {
    if batches == [] then []
    else BatchReadings(batches[..|batches| - 1], floor, sensor) + PointReadings(batches[|batches| - 1], floor, sensor)
  }

  /** The sort key `a.timestamp || 0`. */
  function TimestampOrZero(r: Reading): int {
    match r.timestamp case Some(t) => t case None => 0
  }

  /** The history a chart shows: the matches, stably sorted by timestamp, newest 100 kept. */
  function Extracted(feed: Feed, floor: string, sensor: string): seq<Reading> {
    LastN(SortBy(BatchReadings(Values(feed), floor, sensor), TimestampOrZero), HistoryWindow)
  }

  lemma AppendAssoc<T>(a: seq<T>, b: seq<T>, c: seq<T>)
    ensures a + (b + c) == (a + b) + c
  {
  }

  /** The nested `forEach` over batches and data points that pushes each matching reading. */
  method CollectReadings(feed: Feed, floor: string, sensor: string) returns (readings: seq<Reading>)
    ensures readings == BatchReadings(Values(feed), floor, sensor)
  {
    var batches := Values(feed);
    readings := [];
    var i := 0;
    while i < |batches|
      invariant 0 <= i <= |batches|
      invariant readings == BatchReadings(batches[..i], floor, sensor)
    {
      var batch := batches[i];
      var j := 0;
      while j < |batch|
        invariant 0 <= j <= |batch|
        invariant readings == BatchReadings(batches[..i], floor, sensor) + PointReadings(batch[..j], floor, sensor)
      {
        ghost var before := readings;
        var dataPoint := batch[j];
        var floorData := FloorAt(dataPoint, floor);
        if floorData.FloorObject? && dataPoint.timestamp != 0 {
          var sensorReading := Get(floorData.sensors, sensor);
          if sensorReading.Some? && sensorReading.value.SensorObject? && sensorReading.value.reading.x.Some? {
            readings := readings + [sensorReading.value.reading.(timestamp := Some(dataPoint.timestamp))];
          }
        }
        assert readings == before + AsSeq(ReadingOf(dataPoint, floor, sensor));
        PointReadingsStep(batch, j, floor, sensor);
        AppendAssoc(BatchReadings(batches[..i], floor, sensor), PointReadings(batch[..j], floor, sensor),
                    AsSeq(ReadingOf(dataPoint, floor, sensor)));
        j := j + 1;
      }
      assert batch[..j] == batch;
      BatchReadingsStep(batches, i, floor, sensor);
      i := i + 1;
    }
    assert batches[..i] == batches;
  }

  lemma PointReadingsStep(points: seq<DataPoint>, j: nat, floor: string, sensor: string)
    requires j < |points|
    ensures PointReadings(points[..j + 1], floor, sensor) == PointReadings(points[..j], floor, sensor) + AsSeq(ReadingOf(points[j], floor, sensor))
  {
    assert points[..j + 1][..j] == points[..j];
  }

  lemma BatchReadingsStep(batches: seq<seq<DataPoint>>, i: nat, floor: string, sensor: string)
    requires i < |batches|
    ensures BatchReadings(batches[..i + 1], floor, sensor) == BatchReadings(batches[..i], floor, sensor) + PointReadings(batches[i], floor, sensor)
  {
    assert batches[..i + 1][..i] == batches[..i];
  }

  /**
   * `extractSensorData`. The source branches on the id "batch_data", but both branches read the
   * building's own `batch_data` the same way, so the result does not depend on the id.
   */
  method ExtractSensorData(building: Building, floor: string, sensor: string) returns (r: seq<Reading>)
    ensures r == Extracted(building.record.batchData, floor, sensor)
  {
    var readings: seq<Reading>;
    if building.id == "batch_data" {
      readings := CollectReadings(building.record.batchData, floor, sensor);
    } else {
      readings := CollectReadings(building.record.batchData, floor, sensor);
    }
    var sorted := SortBy(readings, TimestampOrZero);
    r := LastN(sorted, HistoryWindow);
  }

  /** The output is the newest min(100, n) of the n matches, ascending by timestamp. */
  lemma ExtractedSpec(feed: Feed, floor: string, sensor: string)
    ensures var matches := BatchReadings(Values(feed), floor, sensor);
      var r := Extracted(feed, floor, sensor);
      var sorted := SortBy(matches, TimestampOrZero);
      && |r| == (if |matches| < HistoryWindow then |matches| else HistoryWindow)
      && SortedBy(r, TimestampOrZero)
      && r == sorted[|sorted| - |r|..]
      && multiset(r) <= multiset(matches)
  {
    var matches := BatchReadings(Values(feed), floor, sensor);
    var sorted := SortBy(matches, TimestampOrZero);
    var r := Extracted(feed, floor, sensor);
    var k := |sorted| - |r|;
    assert sorted == sorted[..k] + r;
    assert multiset(sorted) == multiset(sorted[..k]) + multiset(r);
  }

  /** Membership in the batch's readings, both directions. */
  lemma {:induction false} PointReadingsMember(points: seq<DataPoint>, floor: string, sensor: string, rd: Reading)
    ensures rd in PointReadings(points, floor, sensor) <==>
      exists j :: 0 <= j < |points| && ReadingOf(points[j], floor, sensor) == Some(rd)
    decreases |points|
  {
    if points != [] {
      var init := points[..|points| - 1];
      PointReadingsMember(init, floor, sensor, rd);
      if exists j :: 0 <= j < |points| && ReadingOf(points[j], floor, sensor) == Some(rd) {
        var j :| 0 <= j < |points| && ReadingOf(points[j], floor, sensor) == Some(rd);
        if j < |points| - 1 {
          assert init[j] == points[j];
        }
      }
    }
  }

  /** A reading is among the matches exactly when some data point of some batch contributes it. */
  lemma {:induction false} BatchReadingsMember(batches: seq<seq<DataPoint>>, floor: string, sensor: string, rd: Reading)
    ensures rd in BatchReadings(batches, floor, sensor) <==>
      exists i, j :: 0 <= i < |batches| && 0 <= j < |batches[i]| && ReadingOf(batches[i][j], floor, sensor) == Some(rd)
    decreases |batches|
  {
    if batches != [] {
      var init, last := batches[..|batches| - 1], batches[|batches| - 1];
      BatchReadingsMember(init, floor, sensor, rd);
      PointReadingsMember(last, floor, sensor, rd);
      if exists i, j :: 0 <= i < |batches| && 0 <= j < |batches[i]| && ReadingOf(batches[i][j], floor, sensor) == Some(rd) {
        var i, j :| 0 <= i < |batches| && 0 <= j < |batches[i]| && ReadingOf(batches[i][j], floor, sensor) == Some(rd);
        if i < |batches| - 1 {
          assert init[i] == batches[i];
        }
      }
    }
  }

  /** Which data points contribute, and what they contribute. */
  lemma ContributionRules(dp: DataPoint, floor: string, sensor: string)
    ensures dp.timestamp == 0 ==> ReadingOf(dp, floor, sensor) == None
    ensures !FloorAt(dp, floor).FloorObject? ==> ReadingOf(dp, floor, sensor) == None
    ensures ReadingOf(dp, floor, sensor).Some? <==>
      && FloorAt(dp, floor).FloorObject?
      && dp.timestamp != 0
      && Get(FloorAt(dp, floor).sensors, sensor).Some?
      && Get(FloorAt(dp, floor).sensors, sensor).value.SensorObject?
      && Get(FloorAt(dp, floor).sensors, sensor).value.reading.x.Some?
    ensures ReadingOf(dp, floor, sensor).Some? ==>
      ReadingOf(dp, floor, sensor).value ==
        Get(FloorAt(dp, floor).sensors, sensor).value.reading.(timestamp := Some(dp.timestamp))
  {
  }

  /** Every reading shown carries an `x` value and the truthy timestamp of a data point in the feed. */
  lemma ExtractedReadingsOrigin(feed: Feed, floor: string, sensor: string, rd: Reading)
    requires rd in Extracted(feed, floor, sensor)
    ensures rd.x.Some? && rd.timestamp.Some? && rd.timestamp.value != 0
    ensures exists i, j ::
              && 0 <= i < |feed| && 0 <= j < |feed[i].1|
              && feed[i].1[j].timestamp == rd.timestamp.value
              && ReadingOf(feed[i].1[j], floor, sensor) == Some(rd)
  {
    var matches := BatchReadings(Values(feed), floor, sensor);
    ExtractedAreMatches(feed, floor, sensor, rd);
    BatchReadingsMember(Values(feed), floor, sensor, rd);
    var i, j :| 0 <= i < |Values(feed)| && 0 <= j < |Values(feed)[i]| && ReadingOf(Values(feed)[i][j], floor, sensor) == Some(rd);
    assert Values(feed)[i] == feed[i].1;
    ContributionRules(feed[i].1[j], floor, sensor);
  }

  lemma ExtractedAreMatches(feed: Feed, floor: string, sensor: string, rd: Reading)
    requires rd in Extracted(feed, floor, sensor)
    ensures rd in BatchReadings(Values(feed), floor, sensor)
  {
    var matches := BatchReadings(Values(feed), floor, sensor);
    var sorted := SortBy(matches, TimestampOrZero);
    var r := Extracted(feed, floor, sensor);
    assert r == sorted[|sorted| - |r|..];
    assert rd in sorted;
    assert rd in multiset(sorted);
  }

  // ------------------------------------------------------------------
  // Chart settings per sensor

  const DefaultChartConfig := ChartConfig(Line, true, true)

  /** The settings key `${floor}-${sensor}`. */
  function ConfigKey(floor: string, sensor: string): string {
    floor + "-" + sensor
  }

  /** `chartConfigs[key] || defaultChartConfig` (a stored settings object is always truthy). */
  function GetChartConfig(configs: map<string, ChartConfig>, floor: string, sensor: string): ChartConfig {
    var key := ConfigKey(floor, sensor);
    if key in configs then configs[key] else DefaultChartConfig
  }

  /** `{ ...prev, [key]: config }`. */
  function UpdateChartConfig(configs: map<string, ChartConfig>, floor: string, sensor: string, config: ChartConfig): map<string, ChartConfig> {
    configs[ConfigKey(floor, sensor) := config]
  }

  /** A never-set sensor gets the default; an update is read back and touches no other key. */
  lemma ChartConfigSpec(configs: map<string, ChartConfig>, floor: string, sensor: string, config: ChartConfig)
    ensures GetChartConfig(map[], floor, sensor) == ChartConfig(Line, true, true)
    ensures GetChartConfig(UpdateChartConfig(configs, floor, sensor, config), floor, sensor) == config
    ensures forall f, s :: ConfigKey(f, s) != ConfigKey(floor, sensor) ==>
      GetChartConfig(UpdateChartConfig(configs, floor, sensor, config), f, s) == GetChartConfig(configs, f, s)
  {
  }

  /** Distinct (floor, sensor) pairs can share one settings key when a name contains "-". */
  lemma ConfigKeysCanCollide()
    ensures ConfigKey("E1-M", "1") == ConfigKey("E1", "M-1")
  {
  }

  // ------------------------------------------------------------------
  // Building statistics

  datatype Stats = Stats(totalSensors: nat, totalFloors: nat, hasRecentData: bool, totalDataPoints: nat, isActive: bool)

  /** `reduce((total, s) => total + s.length, 0)`. */
  function SumLengths<T>(ss: seq<seq<T>>): nat
    decreases |ss|
  {
    if ss == [] then 0 else SumLengths(ss[..|ss| - 1]) + |ss[|ss| - 1]|
  }

  function Concat<T>(ss: seq<seq<T>>): seq<T>
    decreases |ss|
  {
    if ss == [] then [] else ss[0] + Concat(ss[1..])
  }

  lemma {:induction false} ConcatSnoc<T>(ss: seq<seq<T>>, s: seq<T>)
    ensures Concat(ss + [s]) == Concat(ss) + s
    decreases |ss|
  {
    if ss != [] {
      assert (ss + [s])[1..] == ss[1..] + [s];
      ConcatSnoc(ss[1..], s);
    } else {
      assert [s][1..] == [];
    }
  }

  lemma {:induction false} SumLengthsIsConcatLength<T>(ss: seq<seq<T>>)
    ensures SumLengths(ss) == |Concat(ss)|
    decreases |ss|
  {
    if ss != [] {
      var init := ss[..|ss| - 1];
      SumLengthsIsConcatLength(init);
      assert ss == init + [ss[|ss| - 1]];
      ConcatSnoc(init, ss[|ss| - 1]);
    }
  }

  lemma {:induction false} ConcatEmpty<T>(ss: seq<seq<T>>)
    ensures Concat(ss) == [] <==> forall i :: 0 <= i < |ss| ==> ss[i] == []
    decreases |ss|
  {
    if ss != [] {
      ConcatEmpty(ss[1..]);
      assert forall i :: 1 <= i < |ss| ==> ss[i] == ss[1..][i - 1];
    }
  }

  /** `buildingStats`, with the clock reading `now`. */
  function BuildingStats(b: BuildingRecord, now: int): (st: Stats)
    ensures st.totalSensors == |Concat(Values(b.sensorsPerFloor))|
    ensures st.totalFloors == |b.floors|
    ensures st.totalDataPoints == |Concat(Values(b.batchData))|
    ensures st.isActive <==> exists i :: 0 <= i < |b.batchData| && b.batchData[i].1 != []
    ensures st.hasRecentData <==> b.lastUpdated != 0 && now - b.lastUpdated < 30000
  {
    var totalDataPoints := SumLengths(Values(b.batchData));
    SumLengthsIsConcatLength(Values(b.sensorsPerFloor));
    SumLengthsIsConcatLength(Values(b.batchData));
    ConcatEmpty(Values(b.batchData));
    Stats(
      SumLengths(Values(b.sensorsPerFloor)),
      |b.floors|,
      b.lastUpdated != 0 && now - b.lastUpdated < 30000,
      totalDataPoints,
      totalDataPoints > 0)
  }
}
