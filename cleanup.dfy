/**
 * Repairing the record behind the root feed, and seeding the root feed with a sample batch.
 */
module Cleanup {
  import opened Wrappers
  import opened Dict
  import opened Types
  import opened Store
  import opened StableSort
  import BuildingCard
  import FirebaseService

  /**
   * `cleanBuildingData`: the old name and creation time survive when truthy, the layout is
   * reset to the E1/E2 defaults, the inline feed is emptied and `lastUpdated` becomes now.
   */
  function CleanBuildingData(rec: BuildingRecord, now: int): (r: BuildingRecord)
    ensures r.name != ""
    ensures rec.name != "" ==> r.name == rec.name
    ensures rec.createdAt != 0 ==> r.createdAt == rec.createdAt
    ensures r.lastUpdated == now && r.batchData == []
    ensures r.floors == DefaultFloors && r.sensorsPerFloor == DefaultSensorsPerFloor
  {
    BuildingRecord(
      if rec.name != "" then rec.name else MainBuildingName,
      [],
      if rec.createdAt != 0 then rec.createdAt else now,
      now,
      DefaultFloors,
      DefaultSensorsPerFloor)
  }

  /** A falsy name or creation time is replaced: by the main building's name, and by now. */
  lemma CleanFallbacks(rec: BuildingRecord, now: int)
    ensures rec.name == "" ==> CleanBuildingData(rec, now).name == MainBuildingName
    ensures rec.createdAt == 0 ==> CleanBuildingData(rec, now).createdAt == now
  {
  }

  /** Cleaning twice at the same time is cleaning once. */
  lemma CleanIdempotent(rec: BuildingRecord, now: int)
    ensures CleanBuildingData(CleanBuildingData(rec, now), now) == CleanBuildingData(rec, now)
  {
  }

  /** The cleaned record depends on the old one only through its name and creation time. */
  lemma CleanForgetsLayoutAndData(a: BuildingRecord, b: BuildingRecord, now: int)
    requires a.name == b.name && a.createdAt == b.createdAt
    ensures CleanBuildingData(a, now) == CleanBuildingData(b, now)
  {
  }

  /** A chart over the cleaned record shows nothing: its data lives in the root feed. */
  lemma CleanedRecordHasNoHistory(rec: BuildingRecord, now: int, floor: string, sensor: string)
    ensures BuildingCard.Extracted(CleanBuildingData(rec, now).batchData, floor, sensor) == []
  {
    var matches := BuildingCard.BatchReadings(Values(CleanBuildingData(rec, now).batchData), floor, sensor);
    assert matches == [];
    assert |SortBy(matches, BuildingCard.TimestampOrZero)| == 0;
  }

  /**
   * `cleanupFirebaseStructure`: the root feed is read but not written; the root-feed building's
   * record is replaced by its cleaned form if it exists and left absent otherwise.
   */
  method CleanupFirebaseStructure(db: Database, now: int)
    modifies db
    ensures db.root == old(db.root)
    ensures FirebaseService.RootFeedId in Keys(old(db.buildings)) ==>
      db.buildings == Set(old(db.buildings), FirebaseService.RootFeedId,
                          CleanBuildingData(Get(old(db.buildings), FirebaseService.RootFeedId).value, now))
    ensures FirebaseService.RootFeedId !in Keys(old(db.buildings)) ==> db.buildings == old(db.buildings)
  {
    var rootBatchData := db.root;
    var buildingSnapshot := db.Building(FirebaseService.RootFeedId);
    if buildingSnapshot.Some? {
      db.SetBuilding(FirebaseService.RootFeedId, CleanBuildingData(buildingSnapshot.value, now));
    }
  }

  // ------------------------------------------------------------------
  // The sample batch

  const SampleBatchId := "16226"

  function Axes(x: real, y: real, z: real): SensorEntry {
    SensorObject(Reading(Some(x), Some(y), Some(z), None))
  }

  const SamplePoint1 := DataPoint(15804, [
    ("E1", FloorObject([("M1", Axes(-0.8, -1.3, 10.47)), ("M2", Axes(5.25, -3.05, 7.31))])),
    ("E2", FloorObject([("S1", Axes(-0.54, -0.12, 9.78)), ("S2", Axes(-0.81, -0.17, 10.86))]))])

  const SamplePoint2 := DataPoint(15890, [
    ("E1", FloorObject([("M1", Axes(-0.79, -1.35, 10.39)), ("M2", Axes(5.19, -3.13, 7.07))])),
    ("E2", FloorObject([("S1", Axes(-0.6, -0.08, 9.91)), ("S2", Axes(-0.8, -0.21, 10.85))]))])

  /** The one batch `importSampleData` writes, two data points under batch id "16226". */
  const SampleFeed: Feed := [(SampleBatchId, [SamplePoint1, SamplePoint2])]

  /** `importSampleData`: the root feed becomes `{...existing, ...sample}`; buildings are untouched. */
  method ImportSampleData(db: Database)
    modifies db
    ensures db.root == Spread(old(db.root), SampleFeed)
    ensures db.buildings == old(db.buildings)
  {
    var currentData := db.root;
    db.SetRoot(Spread(currentData, SampleFeed));
  }

  /** The sample replaces batch "16226" and keeps every other existing batch. */
  lemma SampleMerge(existing: Feed, batchId: string)
    ensures Get(Spread(existing, SampleFeed), SampleBatchId) == Some([SamplePoint1, SamplePoint2])
    ensures batchId != SampleBatchId ==> Get(Spread(existing, SampleFeed), batchId) == Get(existing, batchId)
  {
    assert Unique(SampleFeed);
    SpreadGet(existing, SampleFeed, SampleBatchId);
    SpreadGet(existing, SampleFeed, batchId);
  }

  const M1First := Reading(Some(-0.8), Some(-1.3), Some(10.47), Some(15804))
  const M1Second := Reading(Some(-0.79), Some(-1.35), Some(10.39), Some(15890))

  lemma SampleReadingFirst()
    ensures BuildingCard.ReadingOf(SamplePoint1, "E1", "M1") == Some(M1First)
  {
  }

  lemma SampleReadingSecond()
    ensures BuildingCard.ReadingOf(SamplePoint2, "E1", "M1") == Some(M1Second)
  {
  }

  lemma SamplePointsMatches()
    ensures BuildingCard.PointReadings([SamplePoint1, SamplePoint2], "E1", "M1") == [M1First, M1Second]
  {
    SampleReadingFirst();
    SampleReadingSecond();
    var points := [SamplePoint1, SamplePoint2];
    assert points[..1] == [SamplePoint1];
    assert points[..1][..0] == [];
    assert BuildingCard.PointReadings(points[..1], "E1", "M1") == [M1First];
  }

  lemma SampleValues()
    ensures Values(SampleFeed) == [[SamplePoint1, SamplePoint2]]
  {
  }

  lemma SampleMatches()
    ensures BuildingCard.BatchReadings(Values(SampleFeed), "E1", "M1") == [M1First, M1Second]
  {
    SampleValues();
    SamplePointsMatches();
    var batches := [[SamplePoint1, SamplePoint2]];
    assert batches[..0] == [];
    assert BuildingCard.BatchReadings(batches, "E1", "M1")
      == BuildingCard.BatchReadings(batches[..0], "E1", "M1") + BuildingCard.PointReadings(batches[0], "E1", "M1");
  }

  /** The sample's E1/M1 history: both readings, in order, stamped with their data points' times. */
  lemma SampleHistory()
    ensures BuildingCard.Extracted(SampleFeed, "E1", "M1") == [M1First, M1Second]
  {
    SampleMatches();
    var rs := [M1First, M1Second];
    assert SortedBy(rs, BuildingCard.TimestampOrZero);
    SortBySorted(rs, BuildingCard.TimestampOrZero);
  }
}
