/**
 * Importing telemetry: into the root feed behind the "batch_data" building, or split by batch
 * id over up to three new buildings; and the check that an imported building holds data.
 */
module DataImport {
  import opened Wrappers
  import opened Dict
  import opened Types
  import opened JsString
  import opened Store
  import BuildingCard
  import FirebaseService

  const ConnectionError := "Cannot connect to Firebase. Please check your database rules."

  /** `testConnection()`'s verdict for the given probe outcomes. */
  predicate Connected(info: FirebaseService.InfoProbe, root: FirebaseService.RootProbe) {
    info == FirebaseService.InfoValue(true) || root == FirebaseService.RootReadable
  }

  lemma ConnectedIsTestConnection(info: FirebaseService.InfoProbe, root: FirebaseService.RootProbe)
    ensures Connected(info, root) == FirebaseService.TestConnection(info, root).connected
  {
  }

  // ------------------------------------------------------------------
  // Import into the root feed

  /** The metadata record created for the root-feed building when it is missing. */
  function RootFeedMetadata(now: int): (r: BuildingRecord)
    ensures r.name == MainBuildingName && r.floors == DefaultFloors
    ensures r.sensorsPerFloor == DefaultSensorsPerFloor && r.batchData == []
    ensures r.createdAt == now && r.lastUpdated == now
  {
    BuildingRecord(MainBuildingName, [], now, now, DefaultFloors, DefaultSensorsPerFloor)
  }

  /** The buildings after `importBatchData`: metadata created only if absent, then `lastUpdated` set. */
  function AfterRootImport(buildings: Dict<BuildingRecord>, now: int): Dict<BuildingRecord> {
    var withMetadata := if FirebaseService.RootFeedId in Keys(buildings) then buildings
      else Set(buildings, FirebaseService.RootFeedId, RootFeedMetadata(now));
    Set(withMetadata, FirebaseService.RootFeedId, RecordOr(withMetadata, FirebaseService.RootFeedId).(lastUpdated := now))
  }

  /**
   * `importBatchData`: a failed connection test stops it before any read or write; otherwise the
   * root-feed building's metadata is created if missing, the root feed becomes `{...existing,
   * ...import}`, its `lastUpdated` is set, and "batch_data" is returned.
   */
  method ImportBatchData(db: Database, importFeed: Feed, info: FirebaseService.InfoProbe,
                         rootProbe: FirebaseService.RootProbe, now: int)
    returns (r: Result<string, string>)
    modifies db
    ensures !Connected(info, rootProbe) ==>
      r == Err(ConnectionError) && db.buildings == old(db.buildings) && db.root == old(db.root)
    ensures Connected(info, rootProbe) ==>
      r == Ok(FirebaseService.RootFeedId)
      && db.root == Spread(old(db.root), importFeed)
      && db.buildings == AfterRootImport(old(db.buildings), now)
  {
    if !Connected(info, rootProbe) {
      return Err(ConnectionError);
    }
    if db.Building(FirebaseService.RootFeedId).None? {
      db.SetBuilding(FirebaseService.RootFeedId, RootFeedMetadata(now));
    }
    var existing := db.root;
    db.SetRoot(Spread(existing, importFeed));
    db.SetLastUpdated(FirebaseService.RootFeedId, now);
    r := Ok(FirebaseService.RootFeedId);
  }

  /**
   * After a root import the root-feed building exists, keeps any metadata it had apart from
   * `lastUpdated`, and the other buildings are untouched.
   */
  lemma RootImportMetadata(buildings: Dict<BuildingRecord>, now: int, id: string)
    ensures var after := AfterRootImport(buildings, now);
      Get(after, FirebaseService.RootFeedId) == Some(
        if FirebaseService.RootFeedId in Keys(buildings)
        then Get(buildings, FirebaseService.RootFeedId).value.(lastUpdated := now)
        else RootFeedMetadata(now))
    ensures id != FirebaseService.RootFeedId ==> Get(AfterRootImport(buildings, now), id) == Get(buildings, id)
  {
  }

  /** The merged root feed: an imported batch id takes the imported array, existing-only ids are kept. */
  lemma RootMergeIsRightBiased(existing: Feed, importFeed: Feed, batchId: string)
    requires Unique(importFeed)
    ensures Get(Spread(existing, importFeed), batchId) ==
      if batchId in Keys(importFeed) then Get(importFeed, batchId) else Get(existing, batchId)
    ensures batchId in Keys(Spread(existing, importFeed)) <==> batchId in Keys(existing) || batchId in Keys(importFeed)
  {
    SpreadGet(existing, importFeed, batchId);
    SpreadKeys(existing, importFeed, batchId);
  }

  // ------------------------------------------------------------------
  // Chunking the batch ids

  function Min(a: int, b: int): int {
    if a < b then a else b
  }

  /** `Math.ceil(n / 3)`: the least c with 3c >= n. */
  function ChunkSize(n: nat): (c: nat)
    ensures 3 * c >= n
    ensures c > 0 ==> 3 * (c - 1) < n
    ensures c == 0 <==> n == 0
  {
    (n + 2) / 3
  }

  /** `s.slice(start, end)` for non-negative bounds, which are clamped to the length. */
  function Slice<T>(s: seq<T>, start: nat, end: nat): (r: seq<T>)
    ensures start <= end <= |s| ==> r == s[start..end]
    ensures end <= start || |s| <= start ==> r == []
  {
    var a := Min(start, |s|);
    var b := Min(end, |s|);
    if a < b then s[a..b] else []
  }

  /** `i * c`, the start of chunk i, written out for the iterations the loop makes. */
  function Start(i: nat, c: nat): nat {
    if i == 0 then 0 else if i == 1 then c else if i == 2 then c + c else i * c
  }

  lemma StartIsProduct(i: nat, c: nat)
    ensures Start(i, c) == i * c
  {
    if i == 2 {
      assert 2 * c == c + c;
    }
  }

  /** Chunk i: `keys.slice(i * c, Math.min(i * c + c, keys.length))`. */
  function Chunk<T>(keys: seq<T>, i: nat): seq<T> {
    var c := ChunkSize(|keys|);
    Slice(keys, Start(i, c), Min(Start(i, c) + c, |keys|))
  }

  /** The chunks that become buildings: the loop's three iterations, stopping at the first empty chunk. */
  function Chunks<T>(keys: seq<T>): seq<seq<T>> {
    if Chunk(keys, 0) == [] then []
    else if Chunk(keys, 1) == [] then [Chunk(keys, 0)]
    else if Chunk(keys, 2) == [] then [Chunk(keys, 0), Chunk(keys, 1)]
    else [Chunk(keys, 0), Chunk(keys, 1), Chunk(keys, 2)]
  }

  /** Chunk i is the i-th run of c ids, cut at the end of the list. */
  lemma ChunkRange<T>(keys: seq<T>, i: nat)
    ensures var c := ChunkSize(|keys|);
      Chunk(keys, i) == if Start(i, c) < |keys| then keys[Start(i, c)..Min(Start(i, c) + c, |keys|)] else []
  {
  }

  lemma ConcatPair<T>(a: seq<T>, b: seq<T>)
    ensures BuildingCard.Concat([a, b]) == a + b
  {
    BuildingCard.ConcatSnoc([a], b);
    assert [a] + [b] == [a, b];
  }

  lemma ConcatTriple<T>(a: seq<T>, b: seq<T>, d: seq<T>)
    ensures BuildingCard.Concat([a, b, d]) == a + b + d
  {
    ConcatPair(a, b);
    BuildingCard.ConcatSnoc([a, b], d);
    assert [a, b] + [d] == [a, b, d];
  }

  /** With c at least n there is one chunk, the whole list. */
  lemma OneChunk<T>(keys: seq<T>)
    requires 0 < |keys| <= ChunkSize(|keys|)
    ensures Chunks(keys) == [keys]
  {
    assert Chunk(keys, 0) == keys[0..|keys|];
    assert Chunk(keys, 1) == [];
    assert keys[0..|keys|] == keys;
  }

  /** With n in (c, 2c] there are two chunks. */
  lemma TwoChunks<T>(keys: seq<T>)
    requires ChunkSize(|keys|) < |keys| <= ChunkSize(|keys|) + ChunkSize(|keys|)
    ensures var c := ChunkSize(|keys|);
      Chunks(keys) == [keys[..c], keys[c..]] && BuildingCard.Concat(Chunks(keys)) == keys
  {
    var c := ChunkSize(|keys|);
    assert Chunk(keys, 0) == keys[..c];
    assert Chunk(keys, 1) == keys[c..];
    ConcatPair(keys[..c], keys[c..]);
    assert keys[..c] + keys[c..] == keys;
  }

  /** With n above 2c there are three chunks, the last one ending the list since 3c >= n. */
  lemma ThreeChunks<T>(keys: seq<T>)
    requires ChunkSize(|keys|) + ChunkSize(|keys|) < |keys|
    ensures var c := ChunkSize(|keys|);
      Chunks(keys) == [keys[..c], keys[c..c + c], keys[c + c..]] && BuildingCard.Concat(Chunks(keys)) == keys
  {
    var c := ChunkSize(|keys|);
    assert Chunk(keys, 0) == keys[..c];
    assert Chunk(keys, 1) == keys[c..c + c];
    assert Chunk(keys, 2) == keys[c + c..];
    ConcatTriple(keys[..c], keys[c..c + c], keys[c + c..]);
    assert keys[..c] + keys[c..c + c] + keys[c + c..] == keys;
  }

  /**
   * The chunks partition the id list: at most three, each non-empty, chunk j the run
   * `keys[j c .. min(j c + c, n))`, and together exactly the list; no ids means no chunks.
   */
  lemma ChunksPartition<T>(keys: seq<T>)
    ensures |Chunks(keys)| <= 3
    ensures BuildingCard.Concat(Chunks(keys)) == keys
    ensures Chunks(keys) == [] <==> keys == []
    ensures forall j :: 0 <= j < |Chunks(keys)| ==>
      && Chunks(keys)[j] != []
      && j * ChunkSize(|keys|) < |keys|
      && Chunks(keys)[j] == keys[j * ChunkSize(|keys|)..Min(j * ChunkSize(|keys|) + ChunkSize(|keys|), |keys|)]
  {
    ChunksCover(keys);
    forall j | 0 <= j < |Chunks(keys)|
      ensures && Chunks(keys)[j] != []
              && j * ChunkSize(|keys|) < |keys|
              && Chunks(keys)[j] == keys[j * ChunkSize(|keys|)..Min(j * ChunkSize(|keys|) + ChunkSize(|keys|), |keys|)]
    {
      ChunkBounds(keys, j);
    }
  }

  /** The chunks concatenate to the whole list. */
  lemma ChunksCover<T>(keys: seq<T>)
    ensures |Chunks(keys)| <= 3
    ensures BuildingCard.Concat(Chunks(keys)) == keys
    ensures Chunks(keys) == [] <==> keys == []
  {
    var c := ChunkSize(|keys|);
    if keys == [] {
      assert Chunk(keys, 0) == [];
    } else if |keys| <= c {
      OneChunk(keys);
      assert BuildingCard.Concat([keys]) == keys + BuildingCard.Concat([keys][1..]);
    } else if |keys| <= c + c {
      TwoChunks(keys);
    } else {
      ThreeChunks(keys);
    }
  }

  /** Chunk j in terms of `j * c`, as the loop computes it. */
  lemma ChunkBounds<T>(keys: seq<T>, j: nat)
    requires j < |Chunks(keys)|
    ensures var c := ChunkSize(|keys|);
      && Chunks(keys)[j] != []
      && j * c < |keys|
      && Chunks(keys)[j] == keys[j * c..Min(j * c + c, |keys|)]
  {
    ChunkAt(keys, j);
    ChunkRange(keys, j);
    StartIsProduct(j, ChunkSize(|keys|));
  }

  /** The loop's view of chunk i: empty means the chunk list ends there, otherwise it is the next chunk. */
  lemma ChunkStep<T>(keys: seq<T>, i: nat)
    requires i < 3 && i <= |Chunks(keys)|
    ensures |Chunks(keys)| <= 3
    ensures Chunk(keys, i) == [] ==> |Chunks(keys)| == i
    ensures Chunk(keys, i) != [] ==> i < |Chunks(keys)| && Chunks(keys)[i] == Chunk(keys, i)
  {
  }

  lemma ChunkAt<T>(keys: seq<T>, j: nat)
    requires j < |Chunks(keys)|
    ensures j < 3 && Chunks(keys)[j] == Chunk(keys, j) && Chunk(keys, j) != []
  {
  }

  /** Each chunk is non-empty and holds only ids from the list. */
  lemma ChunkWithin<T>(keys: seq<T>, j: nat)
    requires j < |Chunks(keys)|
    ensures Chunks(keys)[j] != [] && forall x :: x in Chunks(keys)[j] ==> x in keys
  {
    var c := ChunkSize(|keys|);
    ChunkBounds(keys, j);
    forall x | x in Chunks(keys)[j]
      ensures x in keys
    {
      SliceWithin(keys, j * c, Min(j * c + c, |keys|), x);
    }
  }

  lemma SliceWithin<T>(keys: seq<T>, s: nat, e: nat, x: T)
    requires s <= e <= |keys| && x in keys[s..e]
    ensures x in keys
  {
    var k :| 0 <= k < e - s && keys[s..e][k] == x;
    assert keys[s + k] == x;
  }

  /** In a list of distinct ids, an id of one slice is in no later slice. */
  lemma SliceDisjoint<T>(keys: seq<T>, s1: nat, e1: nat, s2: nat, e2: nat, x: T)
    requires forall a, b :: 0 <= a < b < |keys| ==> keys[a] != keys[b]
    requires s1 <= e1 <= s2 <= e2 <= |keys|
    requires x in keys[s1..e1]
    ensures x !in keys[s2..e2]
  {
    var k1 :| s1 <= k1 < e1 && keys[k1] == x;
    forall k2 | s2 <= k2 < e2
      ensures keys[k2] != x
    {
      assert k1 < k2;
    }
  }

  /** Distinct ids fall into one chunk each: no id lies in two of the first three slices. */
  lemma ChunkDisjoint<T>(keys: seq<T>, j1: nat, j2: nat, x: T)
    requires forall a, b :: 0 <= a < b < |keys| ==> keys[a] != keys[b]
    requires j1 < j2 < 3
    requires x in Chunk(keys, j1)
    ensures x !in Chunk(keys, j2)
  {
    var c, n := ChunkSize(|keys|), |keys|;
    var s1, s2 := Start(j1, c), Start(j2, c);
    assert s1 + c <= s2;
    if s2 < n {
      assert x !in keys[s2..Min(s2 + c, n)] by {
        assert s1 < n && x in keys[s1..Min(s1 + c, n)] by {
          ChunkRange(keys, j1);
        }
        SliceDisjoint(keys, s1, Min(s1 + c, n), s2, Min(s2 + c, n), x);
      }
      assert Chunk(keys, j2) == keys[s2..Min(s2 + c, n)] by {
        ChunkRange(keys, j2);
      }
    } else {
      assert Chunk(keys, j2) == [] by {
        ChunkRange(keys, j2);
      }
    }
  }

  /** So the buildings of one multi import share no batch id. */
  lemma ChunksDisjoint<T>(keys: seq<T>, j1: nat, j2: nat, x: T)
    requires forall a, b :: 0 <= a < b < |keys| ==> keys[a] != keys[b]
    requires j1 < j2 < |Chunks(keys)|
    requires x in Chunks(keys)[j1]
    ensures x !in Chunks(keys)[j2]
  {
    ChunkAt(keys, j1);
    ChunkAt(keys, j2);
    ChunkDisjoint(keys, j1, j2, x);
  }

  /** Four ids fill only two chunks of two: fewer than three buildings can come out. */
  lemma FourIdsMakeTwoChunks(keys: seq<string>)
    requires |keys| == 4
    ensures Chunks(keys) == [keys[0..2], keys[2..4]]
  {
    assert ChunkSize(4) == 2;
    TwoChunks(keys);
  }

  // ------------------------------------------------------------------
  // Import as several buildings

  /** `buildingBatchData`: `subset[key] = feed[key]` for each key in turn, on a `{}` literal. */
  function Select(feed: Feed, ks: seq<string>): Feed
    decreases |ks|
  {
    if ks == [] then []
    else
      var acc := Select(feed, ks[..|ks| - 1]);
      match Get(feed, ks[|ks| - 1])
      case Some(points) => Assign(acc, ks[|ks| - 1], points)
      case None => acc
  }

  /**
   * The subset holds exactly the listed keys of the feed, with the feed's values, except that a
   * batch id `__proto__` is lost: its assignment creates no own key.
   */
  lemma {:induction false} SelectGet(feed: Feed, ks: seq<string>, k: string)
    ensures Get(Select(feed, ks), k) == if k in ks && k != ProtoKey then Get(feed, k) else None
    decreases |ks|
  {
    if ks != [] {
      var init := ks[..|ks| - 1];
      SelectGet(feed, init, k);
      assert ks == init + [ks[|ks| - 1]];
      assert k in ks <==> k in init || k == ks[|ks| - 1];
    }
  }

  function BuildingName(i: nat): string {
    "Building " + NatToString(i + 1)
  }

  /** The record building j ends with: the `addBuilding` record, then its batch subset. */
  function ChunkRecord(feed: Feed, chunk: seq<string>, j: nat, now: int): BuildingRecord {
    FirebaseService.NewBuildingRecord(BuildingName(j), DefaultFloors, DefaultSensorsPerFloor, now).(batchData := Select(feed, chunk))
  }

  /** The buildings after the first n chunks have been turned into buildings. */
  function Placed(buildings: Dict<BuildingRecord>, feed: Feed, chunks: seq<seq<string>>, pushKeys: seq<string>, n: nat, now: int): Dict<BuildingRecord>
    requires n <= |chunks| && n <= |pushKeys|
  {
    if n == 0 then buildings
    else Set(Placed(buildings, feed, chunks, pushKeys, n - 1, now), pushKeys[n - 1], ChunkRecord(feed, chunks[n - 1], n - 1, now))
  }

  /**
   * `importAsMultipleBuildings`: a failed connection test stops it before any write; otherwise
   * one building per chunk, named "Building 1", "Building 2", ..., under the keys `push`
   * generates, each holding its chunk of the feed; the root feed is untouched.
   */
  method ImportAsMultipleBuildings(svc: FirebaseService.Service, db: Database, importFeed: Feed,
                                   info: FirebaseService.InfoProbe, rootProbe: FirebaseService.RootProbe,
                                   now: int, pushKeys: seq<string>)
    returns (r: Result<seq<string>, string>)
    requires |pushKeys| == 3
    modifies db
    ensures !Connected(info, rootProbe) ==>
      r == Err(ConnectionError) && db.buildings == old(db.buildings) && db.root == old(db.root)
    ensures Connected(info, rootProbe) ==>
      var chunks := Chunks(Keys(importFeed));
      r == Ok(pushKeys[..|chunks|])
      && db.buildings == Placed(old(db.buildings), importFeed, chunks, pushKeys, |chunks|, now)
      && db.root == old(db.root)
  {
    if !Connected(info, rootProbe) {
      return Err(ConnectionError);
    }
    var buildingIds: seq<string> := [];
    var batchKeys := Keys(importFeed);
    ghost var chunks := Chunks(batchKeys);
    var chunksPerBuilding := ChunkSize(|batchKeys|);
    var i := 0;
    ChunkStep(batchKeys, 0);
    while i < 3
      invariant 0 <= i <= |chunks| <= 3
      invariant buildingIds == pushKeys[..i]
      invariant db.buildings == Placed(old(db.buildings), importFeed, chunks, pushKeys, i, now)
      invariant db.root == old(db.root)
    {
      var buildingBatchKeys := ChunkSlice(batchKeys, i, chunksPerBuilding);
      if |buildingBatchKeys| == 0 {
        break;
      }
      var buildingId := PlaceChunk(svc, db, importFeed, buildingBatchKeys, i, now, pushKeys[i]);
      PrefixSnoc(pushKeys, i);
      buildingIds := buildingIds + [buildingId];
      i := i + 1;
    }
    r := Ok(buildingIds);
  }

  lemma PrefixSnoc<T>(s: seq<T>, i: nat)
    requires i < |s|
    ensures s[..i + 1] == s[..i] + [s[i]]
  {
  }

  /** `batchKeys.slice(startIdx, endIdx)` with the bounds the loop computes for building i. */
  method ChunkSlice(batchKeys: seq<string>, i: nat, chunksPerBuilding: nat) returns (buildingBatchKeys: seq<string>)
    requires chunksPerBuilding == ChunkSize(|batchKeys|)
    requires i < 3 && i <= |Chunks(batchKeys)|
    ensures buildingBatchKeys == [] ==> |Chunks(batchKeys)| == i
    ensures buildingBatchKeys != [] ==> i < |Chunks(batchKeys)| && Chunks(batchKeys)[i] == buildingBatchKeys
  {
    ChunkStep(batchKeys, i);
    var startIdx := i * chunksPerBuilding;
    StartIsProduct(i, chunksPerBuilding);
    var endIdx := Min(startIdx + chunksPerBuilding, |batchKeys|);
    buildingBatchKeys := Slice(batchKeys, startIdx, endIdx);
  }

  /** One iteration's writes: `addBuilding` for building i, then its batch subset under the new id. */
  method PlaceChunk(svc: FirebaseService.Service, db: Database, importFeed: Feed, buildingBatchKeys: seq<string>,
                    i: nat, now: int, pushKey: string)
    returns (buildingId: string)
    modifies db
    ensures buildingId == pushKey
    ensures db.buildings == Set(old(db.buildings), pushKey, ChunkRecord(importFeed, buildingBatchKeys, i, now))
    ensures db.root == old(db.root)
  {
    var buildingBatchData := SelectKeys(importFeed, buildingBatchKeys);
    var before := db.buildings;
    buildingId := svc.AddBuilding(db, BuildingName(i), DefaultFloors, DefaultSensorsPerFloor, now, pushKey);
    db.SetBuildingBatch(buildingId, buildingBatchData);
    AddThenFill(before, pushKey, FirebaseService.NewBuildingRecord(BuildingName(i), DefaultFloors, DefaultSensorsPerFloor, now), buildingBatchData);
  }

  /** `addBuilding` followed by the batch write leaves the new record with the batch in it. */
  lemma AddThenFill(d: Dict<BuildingRecord>, k: string, rec: BuildingRecord, feed: Feed)
    ensures var added := Set(d, k, rec);
      Set(added, k, RecordOr(added, k).(batchData := feed)) == Set(d, k, rec.(batchData := feed))
  {
    SetTwice(d, k, rec, rec.(batchData := feed));
  }

  /** The subset built key by key, as the `forEach` does. */
  method SelectKeys(feed: Feed, ks: seq<string>) returns (subset: Feed)
    ensures subset == Select(feed, ks)
  {
    subset := [];
    var j := 0;
    while j < |ks|
      invariant 0 <= j <= |ks|
      invariant subset == Select(feed, ks[..j])
    {
      assert ks[..j + 1][..j] == ks[..j];
      match Get(feed, ks[j]) {
        case Some(points) => subset := Assign(subset, ks[j], points);
        case None =>
      }
      j := j + 1;
    }
    assert ks[..j] == ks;
  }

  // ------------------------------------------------------------------
  // Verification

  /** `verifyImportedData`: the building exists and has at least one batch id. */
  function Verified(buildings: Dict<BuildingRecord>, id: string): (ok: bool)
    ensures ok <==> id in Keys(buildings) && Get(buildings, id).value.batchData != []
  {
    match Get(buildings, id)
    case Some(rec) => |Keys(rec.batchData)| > 0
    case None => false
  }

  method VerifyImportedData(db: Database, buildingId: string) returns (ok: bool)
    ensures ok == Verified(db.buildings, buildingId)
  {
    var snapshot := db.Building(buildingId);
    match snapshot {
      case Some(rec) => ok := |Keys(rec.batchData)| > 0;
      case None => ok := false;
    }
  }

  /** With distinct push keys, building j of a multi import holds exactly its chunk's record. */
  lemma {:induction false} PlacedGet(buildings: Dict<BuildingRecord>, feed: Feed, chunks: seq<seq<string>>,
                                     pushKeys: seq<string>, n: nat, now: int, j: nat)
    requires n <= |chunks| && n <= |pushKeys| && j < n
    requires forall a :: j < a < n ==> pushKeys[a] != pushKeys[j]
    ensures Get(Placed(buildings, feed, chunks, pushKeys, n, now), pushKeys[j]) == Some(ChunkRecord(feed, chunks[j], j, now))
  {
    if j < n - 1 {
      PlacedGet(buildings, feed, chunks, pushKeys, n - 1, now, j);
    }
  }

  /**
   * A building a multi import creates passes verification exactly when its chunk holds a batch
   * id other than `__proto__`; so every building does unless its whole chunk is that one id.
   */
  lemma MultiImportVerifies(buildings: Dict<BuildingRecord>, feed: Feed, pushKeys: seq<string>, now: int, j: nat)
    requires |pushKeys| == 3
    requires pushKeys[0] != pushKeys[1] && pushKeys[0] != pushKeys[2] && pushKeys[1] != pushKeys[2]
    requires j < |Chunks(Keys(feed))|
    ensures var chunks := Chunks(Keys(feed));
      Verified(Placed(buildings, feed, chunks, pushKeys, |chunks|, now), pushKeys[j])
      <==> exists k :: k in chunks[j] && k != ProtoKey
  {
    var chunks := Chunks(Keys(feed));
    ChunkWithin(Keys(feed), j);
    PlacedGet(buildings, feed, chunks, pushKeys, |chunks|, now, j);
    SelectNonEmpty(feed, chunks[j]);
  }

  /** The subset of ids the feed has is empty exactly when none of them is other than `__proto__`. */
  lemma SelectNonEmpty(feed: Feed, ks: seq<string>)
    requires forall x :: x in ks ==> x in Keys(feed)
    ensures Select(feed, ks) != [] <==> exists k :: k in ks && k != ProtoKey
  {
    var subset := Select(feed, ks);
    if k :| k in ks && k != ProtoKey {
      SelectGet(feed, ks, k);
      assert k in Keys(subset);
    }
    if subset != [] {
      var k := subset[0].0;
      assert k in Keys(subset);
      SelectGet(feed, ks, k);
    }
  }

  /** A feed whose only batch id is `__proto__` yields one building with an empty subset, which fails verification. */
  lemma ProtoOnlyFeedDoesNotVerify(buildings: Dict<BuildingRecord>, points: seq<DataPoint>, pushKeys: seq<string>, now: int)
    requires |pushKeys| == 3
    requires pushKeys[0] != pushKeys[1] && pushKeys[0] != pushKeys[2] && pushKeys[1] != pushKeys[2]
    ensures var feed := [(ProtoKey, points)];
      var chunks := Chunks(Keys(feed));
      |chunks| == 1 && !Verified(Placed(buildings, feed, chunks, pushKeys, 1, now), pushKeys[0])
  {
    var feed := [(ProtoKey, points)];
    assert Keys(feed) == [ProtoKey];
    assert ChunkSize(1) == 1;
    OneChunk(Keys(feed));
    MultiImportVerifies(buildings, feed, pushKeys, now, 0);
  }

  /** A root import whose building was missing creates it with an empty inline feed, so its verification fails. */
  lemma RootImportDoesNotVerify(buildings: Dict<BuildingRecord>, now: int)
    requires FirebaseService.RootFeedId !in Keys(buildings)
    ensures !Verified(AfterRootImport(buildings, now), FirebaseService.RootFeedId)
  {
  }
}
