/**
 * The sensor card's chart preparation: the readings turned into four parallel arrays sorted by
 * timestamp, the chart-setting toggles, and the "latest value" shown under the chart.
 */
module SensorCard {
  import opened Wrappers
  import opened Types
  import opened StableSort

  /** One entry of the `combined` array: `{ timestamp, x, y, z }`. */
  datatype Point = Point(timestamp: int, x: real, y: real, z: real)

  datatype ProcessedData = ProcessedData(timestamps: seq<int>, xData: seq<real>, yData: seq<real>, zData: seq<real>)

  /** `v || 0`. */
  function OrZero(v: Option<real>): real {
    match v case Some(a) => a case None => 0.0
  }

  /** `t || Date.now()`, the clock read as `now`. */
  function TimestampOr(t: Option<int>, now: int): int {
    match t case Some(v) => if v != 0 then v else now case None => now
  }

  function Normalize(r: Reading, now: int): Point {
    Point(TimestampOr(r.timestamp, now), OrZero(r.x), OrZero(r.y), OrZero(r.z))
  }

  function Normalized(data: seq<Reading>, now: int): (ps: seq<Point>)
    ensures |ps| == |data|
  {
    seq(|data|, i requires 0 <= i < |data| => Normalize(data[i], now))
  }

  function PointTime(p: Point): int {
    p.timestamp
  }

  predicate SameLengths(pd: ProcessedData) {
    |pd.xData| == |pd.timestamps| && |pd.yData| == |pd.timestamps| && |pd.zData| == |pd.timestamps|
  }

  /** The four arrays read back as tuples, index by index. */
  function Zip(pd: ProcessedData): seq<Point>
    requires SameLengths(pd)
  {
    seq(|pd.timestamps|, i requires 0 <= i < |pd.timestamps| => Point(pd.timestamps[i], pd.xData[i], pd.yData[i], pd.zData[i]))
  }

  /**
   * `processedData`: all four arrays have the input's length, the timestamps ascend, and the
   * tuples are the stable sort of the normalised input, each index keeping its own (t, x, y, z).
   */
  method ProcessData(data: seq<Reading>, now: int) returns (pd: ProcessedData)
    ensures SameLengths(pd) && |pd.timestamps| == |data|
    ensures forall i, j :: 0 <= i < j < |data| ==> pd.timestamps[i] <= pd.timestamps[j]
    ensures Zip(pd) == SortBy(Normalized(data, now), PointTime)
  {
    var timestamps: seq<int> := [];
    var xData: seq<real> := [];
    var yData: seq<real> := [];
    var zData: seq<real> := [];
    var i := 0;
    while i < |data|
      invariant 0 <= i <= |data|
      invariant |timestamps| == i && |xData| == i && |yData| == i && |zData| == i
      invariant forall k :: 0 <= k < i ==>
        Point(timestamps[k], xData[k], yData[k], zData[k]) == Normalize(data[k], now)
    {
      var reading := data[i];
      timestamps := timestamps + [TimestampOr(reading.timestamp, now)];
      xData := xData + [OrZero(reading.x)];
      yData := yData + [OrZero(reading.y)];
      zData := zData + [OrZero(reading.z)];
      i := i + 1;
    }
    var combined := seq(|timestamps|, k requires 0 <= k < |timestamps| => Point(timestamps[k], xData[k], yData[k], zData[k]));
    assert combined == Normalized(data, now);
    combined := SortBy(combined, PointTime);
    pd := ProcessedData(
      seq(|combined|, k requires 0 <= k < |combined| => combined[k].timestamp),
      seq(|combined|, k requires 0 <= k < |combined| => combined[k].x),
      seq(|combined|, k requires 0 <= k < |combined| => combined[k].y),
      seq(|combined|, k requires 0 <= k < |combined| => combined[k].z));
    assert Zip(pd) == combined;
    assert forall i, j :: 0 <= i < j < |data| ==> PointTime(combined[i]) <= PointTime(combined[j]);
  }

  /** A falsy timestamp (missing or 0) becomes `now`; a falsy axis value becomes 0. */
  lemma NormalizeSpec(r: Reading, now: int)
    ensures r.timestamp == None || r.timestamp == Some(0) ==> Normalize(r, now).timestamp == now
    ensures r.timestamp.Some? && r.timestamp.value != 0 ==> Normalize(r, now).timestamp == r.timestamp.value
    ensures r.x == None ==> Normalize(r, now).x == 0.0
    ensures r.x.Some? ==> Normalize(r, now).x == r.x.value
    ensures r.y == None ==> Normalize(r, now).y == 0.0
    ensures r.y.Some? ==> Normalize(r, now).y == r.y.value
    ensures r.z == None ==> Normalize(r, now).z == 0.0
    ensures r.z.Some? ==> Normalize(r, now).z == r.z.value
  {
  }

  // ------------------------------------------------------------------
  // Chart-setting toggles (`onConfigChange({ ...chartConfig, ... })`)

  function ShowAsLine(c: ChartConfig): ChartConfig {
    c.(chartType := Line)
  }

  function ShowAsDots(c: ChartConfig): ChartConfig {
    c.(chartType := Scatter)
  }

  function ToggleGrid(c: ChartConfig): ChartConfig {
    c.(showGrid := !c.showGrid)
  }

  function ToggleAnimation(c: ChartConfig): ChartConfig {
    c.(animated := !c.animated)
  }

  /** Line and Dots set only the type; Grid and Anim negate only their own flag. */
  lemma TogglesSpec(c: ChartConfig)
    ensures ShowAsLine(c).chartType == Line && ShowAsDots(c).chartType == Scatter
    ensures ShowAsLine(c).showGrid == c.showGrid && ShowAsLine(c).animated == c.animated
    ensures ShowAsDots(c).showGrid == c.showGrid && ShowAsDots(c).animated == c.animated
    ensures ToggleGrid(c).showGrid != c.showGrid
    ensures ToggleGrid(c).chartType == c.chartType && ToggleGrid(c).animated == c.animated
    ensures ToggleAnimation(c).animated != c.animated
    ensures ToggleAnimation(c).chartType == c.chartType && ToggleAnimation(c).showGrid == c.showGrid
    ensures ToggleGrid(ToggleGrid(c)) == c && ToggleAnimation(ToggleAnimation(c)) == c
    ensures ShowAsLine(ShowAsLine(c)) == ShowAsLine(c) && ShowAsDots(ShowAsDots(c)) == ShowAsDots(c)
  {
  }

  // ------------------------------------------------------------------
  // Latest value

  /** `data[data.length - 1]`: the last reading received, None for no data. */
  function Latest(data: seq<Reading>): Option<Reading> {
    if data == [] then None else Some(data[|data| - 1])
  }

  lemma LatestIsLastReceived(data: seq<Reading>, r: Reading)
    ensures Latest([]) == None
    ensures Latest(data + [r]) == Some(r)
  {
  }

  /** The latest value is the last one received, which need not be the newest by timestamp. */
  lemma LatestIsNotNewest()
    ensures var older := Reading(Some(1.0), Some(0.0), Some(0.0), Some(1));
      var newer := Reading(Some(2.0), Some(0.0), Some(0.0), Some(2));
      var sorted := SortBy(Normalized([newer, older], 0), PointTime);
      Latest([newer, older]) == Some(older) && sorted[|sorted| - 1] == Normalize(newer, 0)
  {
    var older := Reading(Some(1.0), Some(0.0), Some(0.0), Some(1));
    var newer := Reading(Some(2.0), Some(0.0), Some(0.0), Some(2));
    var ps := Normalized([newer, older], 0);
    assert ps == [Normalize(newer, 0), Normalize(older, 0)];
    assert ps[1..] == [Normalize(older, 0)];
    assert SortBy(ps[1..][1..], PointTime) == [];
    assert SortBy(ps[1..], PointTime) == [Normalize(older, 0)];
  }
}
