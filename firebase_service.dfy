/**
 * The Firebase service: the two-source merge behind the all-buildings subscription, the
 * listener registry, the debug-log sink, the connection test and the building writes.
 * Registrations with the database (`onValue`) are numbered; a disposer is the list of
 * registrations it cancels.
 */
module FirebaseService {
  import opened Wrappers
  import opened Dict
  import opened Types
  import opened JsString
  import opened Store

  /** The building id whose feed lives at the root `batch_data` node. */
  const RootFeedId := "batch_data"

  /** The registry key of the all-buildings subscription. */
  const AllBuildingsKey := "all-buildings"

  /** `{ id, ...building }`, with the root feed substituted for the root-feed building. */
  function MergeOne(id: string, record: BuildingRecord, root: Feed): Building {
    if id == RootFeedId then Building(id, record.(batchData := root)) else Building(id, record)
  }

  /**
   * `updateCallback`'s list: one building per key of the buildings cache, in enumeration order,
   * with that key as its id; the root-feed building carries the root feed and keeps the rest of
   * its record, every other building is its record unchanged.
   */
  function Merge(buildings: Dict<BuildingRecord>, root: Feed): (r: seq<Building>)
    ensures |r| == |buildings|
    ensures forall i :: 0 <= i < |r| ==> r[i].id == buildings[i].0
    ensures forall i :: 0 <= i < |r| && buildings[i].0 != RootFeedId ==> r[i].record == buildings[i].1
    ensures forall i :: 0 <= i < |r| && buildings[i].0 == RootFeedId ==>
      r[i].record == buildings[i].1.(batchData := root)
  {
    seq(|buildings|, i requires 0 <= i < |buildings| => MergeOne(buildings[i].0, buildings[i].1, root))
  }

  /** `getAllBuildings`: `Object.entries(data).map(([id, b]) => ({ id, ...b }))`. */
  function AllBuildings(buildings: Dict<BuildingRecord>): (r: seq<Building>)
    ensures |r| == |buildings|
    ensures forall i :: 0 <= i < |r| ==> r[i] == Building(buildings[i].0, buildings[i].1)
  {
    seq(|buildings|, i requires 0 <= i < |buildings| => Building(buildings[i].0, buildings[i].1))
  }

  function Ids(bs: seq<Building>): (ids: seq<string>)
    ensures |ids| == |bs|
    ensures forall i :: 0 <= i < |bs| ==> ids[i] == bs[i].id
  {
    seq(|bs|, i requires 0 <= i < |bs| => bs[i].id)
  }

  /** The merged ids are exactly the cache's keys, in order. */
  lemma MergeIds(buildings: Dict<BuildingRecord>, root: Feed)
    ensures Ids(Merge(buildings, root)) == Keys(buildings)
  {
  }

  /** Without a root-feed building, the root feed is irrelevant and the merge is the plain listing. */
  lemma MergeWithoutRootFeed(buildings: Dict<BuildingRecord>, root: Feed)
    requires RootFeedId !in Keys(buildings)
    ensures Merge(buildings, root) == AllBuildings(buildings)
  {
    forall i | 0 <= i < |buildings|
      ensures buildings[i].0 != RootFeedId
    {
      assert Keys(buildings)[i] == buildings[i].0;
    }
  }

  /** The merge differs from the plain listing at most at the root-feed building, and only in its feed. */
  lemma MergeDiffersOnlyInRootFeed(buildings: Dict<BuildingRecord>, root: Feed, i: nat)
    requires i < |buildings|
    ensures Merge(buildings, root)[i].id == AllBuildings(buildings)[i].id
    ensures Merge(buildings, root)[i].record.(batchData := []) == AllBuildings(buildings)[i].record.(batchData := [])
    ensures Merge(buildings, root)[i] != AllBuildings(buildings)[i] ==> buildings[i].0 == RootFeedId
  {
  }

  /** `subscribeToBuilding`'s callback: `{ id: buildingId, ...data }`, or null when the node is missing. */
  function BuildingEvent(buildingId: string, snapshot: Option<BuildingRecord>): (r: Option<Building>)
    ensures r.Some? <==> snapshot.Some?
    ensures r.Some? ==> r.value.id == buildingId && r.value.record == snapshot.value
  {
    match snapshot
    case Some(rec) => Some(Building(buildingId, rec))
    case None => None
  }

  /** The closure state of one `subscribeToAllBuildings` call: the two caches. */
  class AllBuildingsSubscription {
    var buildingsData: Dict<BuildingRecord>
    var rootBatchData: Feed

    /** Both caches start empty. */
    constructor ()
      ensures buildingsData == [] && rootBatchData == []
    {
      buildingsData := [];
      rootBatchData := [];
    }

    /** An event on `buildings`: only the buildings cache changes, then one emission of the merge. */
    method OnBuildings(snapshot: Option<Dict<BuildingRecord>>) returns (emission: seq<Building>)
      modifies this
      ensures buildingsData == (match snapshot case Some(v) => v case None => [])
      ensures rootBatchData == old(rootBatchData)
      ensures emission == Merge(buildingsData, rootBatchData)
    {
      match snapshot {
        case Some(v) => buildingsData := v;
        case None => buildingsData := [];
      }
      emission := Merge(buildingsData, rootBatchData);
    }

    /** An event on the root `batch_data`: only the root cache changes, then one emission of the merge. */
    method OnRoot(snapshot: Option<Feed>) returns (emission: seq<Building>)
      modifies this
      ensures rootBatchData == (match snapshot case Some(v) => v case None => [])
      ensures buildingsData == old(buildingsData)
      ensures emission == Merge(buildingsData, rootBatchData)
    {
      match snapshot {
        case Some(v) => rootBatchData := v;
        case None => rootBatchData := [];
      }
      emission := Merge(buildingsData, rootBatchData);
    }
  }

  /** A first event from the root feed finds the buildings cache empty and emits no buildings. */
  method RootEventFirst(feed: Feed) returns (emission: seq<Building>)
    ensures emission == []
  {
    var sub := new AllBuildingsSubscription();
    emission := sub.OnRoot(Some(feed));
  }

  /** Interleaved events: each emission reflects the latest value of both caches. */
  method InterleavedEvents(b1: Dict<BuildingRecord>, feed: Feed, b2: Dict<BuildingRecord>)
    returns (e1: seq<Building>, e2: seq<Building>, e3: seq<Building>, e4: seq<Building>)
    ensures e1 == Merge(b1, [])
    ensures e2 == Merge(b1, feed)
    ensures e3 == Merge(b2, feed)
    ensures e4 == Merge(b2, [])
  {
    var sub := new AllBuildingsSubscription();
    e1 := sub.OnBuildings(Some(b1));
    e2 := sub.OnRoot(Some(feed));
    e3 := sub.OnBuildings(Some(b2));
    e4 := sub.OnRoot(None);
  }

  // ------------------------------------------------------------------
  // Debug logs

  /** A registered debug callback, identified by the registration that installed it. */
  datatype Sink = Sink(id: nat)

  /** What `log` hands to the callback: id `Date.now().toString()` and timestamp `Date.now()`. */
  function LogEntry(level: Level, message: string, now: nat): (e: DebugLog)
    ensures e.timestamp == now && e.level == level && e.message == message
    ensures e.id == NatToString(now) && e.id != []
  {
    DebugLog(NatToString(now), now, level, message)
  }

  // ------------------------------------------------------------------
  // Connection test

  /** The `.info/connected` read: its value is `true` or not, or the read throws. */
  datatype InfoProbe = InfoValue(isTrue: bool) | InfoFailed

  /** The fallback read of `/`: it succeeds or throws. */
  datatype RootProbe = RootReadable | RootFailed

  datatype ConnectionTest = ConnectionTest(connected: bool, logs: seq<(Level, string)>)

  /** `testConnection`: the probe outcomes are inputs; nothing escapes as an exception. */
  function TestConnection(info: InfoProbe, root: RootProbe): (r: ConnectionTest)
    ensures r.connected <==> info == InfoValue(true) || root == RootReadable
    ensures !r.connected ==> root == RootFailed
    ensures |r.logs| >= 2 && r.logs[0] == (Info, "Testing Firebase connection")
    ensures (Error, "Firebase connection test failed - cannot read from database") in r.logs <==> !r.connected
    ensures info == InfoFailed <==>
      (Warning, "Failed to check .info/connected, trying alternative method") in r.logs
    ensures |r.logs| == if info == InfoFailed then 3 else 2
    ensures r.logs[|r.logs| - 1] ==
      if info == InfoValue(true) then (Info, "Firebase connection test: Connected via .info/connected")
      else if r.connected then (Info, "Firebase connection test: Connected via root read")
      else (Error, "Firebase connection test failed - cannot read from database")
  {
    var start := [(Info, "Testing Firebase connection")];
    if info == InfoValue(true) then
      ConnectionTest(true, start + [(Info, "Firebase connection test: Connected via .info/connected")])
    else
      var afterInfo := if info == InfoFailed
        then start + [(Warning, "Failed to check .info/connected, trying alternative method")]
        else start;
      match root
      case RootReadable =>
        ConnectionTest(true, afterInfo + [(Info, "Firebase connection test: Connected via root read")])
      case RootFailed =>
        ConnectionTest(false, afterInfo + [(Error, "Firebase connection test failed - cannot read from database")])
  }

  /** The root read happens only as a fallback: when `.info/connected` is true its outcome is irrelevant. */
  lemma RootReadOnlyAsFallback(root1: RootProbe, root2: RootProbe)
    ensures TestConnection(InfoValue(true), root1) == TestConnection(InfoValue(true), root2)
  {
  }

  // ------------------------------------------------------------------
  // Records written by the service

  /** `addBuilding`'s record: empty feed, created and updated now. */
  function NewBuildingRecord(name: string, floors: seq<string>, sensorsPerFloor: Dict<seq<string>>, now: int): (r: BuildingRecord)
    ensures r.name == name && r.floors == floors && r.sensorsPerFloor == sensorsPerFloor
    ensures r.batchData == [] && r.createdAt == now && r.lastUpdated == now
  {
    BuildingRecord(name, [], now, now, floors, sensorsPerFloor)
  }

  /** `updateBuildingData`'s record: `set` replaces the node with just a feed and a time. */
  function UpdatedRecord(batchData: Feed, now: int): (r: BuildingRecord)
    ensures r.batchData == batchData && r.lastUpdated == now
    ensures r.name == "" && r.floors == [] && r.sensorsPerFloor == [] && r.createdAt == 0
  {
    EmptyRecord.(batchData := batchData, lastUpdated := now)
  }

  // ------------------------------------------------------------------
  // The service object

  /**
   * The disposer handed back by a subscription: the registry key it deletes, the registrations it
   * cancels and the message it logs.
   */
  datatype Handle = Handle(key: string, registrations: seq<nat>, farewell: string)

  /** The entries `log` hands to `callback` when the messages `logs` are logged in order at time `now`. */
  function Deliveries(callback: Option<Sink>, logs: seq<(Level, string)>, now: nat): (r: seq<(Sink, DebugLog)>)
    ensures |r| == if callback.Some? then |logs| else 0
    ensures forall i :: 0 <= i < |r| ==> r[i] == (callback.value, LogEntry(logs[i].0, logs[i].1, now))
  {
    if callback.None? || logs == [] then []
    else
      var last := logs[|logs| - 1];
      Deliveries(callback, logs[..|logs| - 1], now) + [(callback.value, LogEntry(last.0, last.1, now))]
  }

  /** Logging two runs of messages one after the other delivers the entries of both, in order. */
  lemma DeliveriesAppend(callback: Option<Sink>, xs: seq<(Level, string)>, ys: seq<(Level, string)>, now: nat)
    ensures Deliveries(callback, xs + ys, now) == Deliveries(callback, xs, now) + Deliveries(callback, ys, now)
  {
  }

  function Elems(s: seq<nat>): set<nat> {
    set r | r in s
  }

  /** Every registration the stored disposers of `listeners` cancel. */
  function Cancelled(listeners: Dict<seq<nat>>): (c: set<nat>)
    ensures forall i :: 0 <= i < |listeners| ==> Elems(listeners[i].1) <= c
  {
    if listeners == [] then {} else Cancelled(listeners[..|listeners| - 1]) + Elems(listeners[|listeners| - 1].1)
  }

  lemma CancelledPair(a: (string, seq<nat>), b: (string, seq<nat>))
    ensures Cancelled([a, b]) == Elems(a.1) + Elems(b.1)
  {
    assert [a][..0] == [];
    assert Cancelled([a]) == Elems(a.1);
    assert [a, b][..1] == [a];
  }

  class Service {
    /** `listeners`: key to the registrations its stored disposer cancels. */
    var listeners: Dict<seq<nat>>
    /** The `onValue` registrations still live in the database client. */
    var active: set<nat>
    var nextRegistration: nat
    var debugCallback: Option<Sink>
    /** The entries delivered so far, with the callback that received each. */
    var delivered: seq<(Sink, DebugLog)>

    ghost predicate Valid()
      reads this
    {
      forall r :: r in active ==> r < nextRegistration
    }

    constructor ()
      ensures Valid()
      ensures listeners == [] && active == {} && nextRegistration == 0
      ensures debugCallback == None && delivered == []
    {
      listeners := [];
      active := {};
      nextRegistration := 0;
      debugCallback := None;
      delivered := [];
    }

    /** `setDebugCallback`: the new callback replaces any earlier one. */
    method SetDebugCallback(sink: Sink)
      modifies this
      ensures debugCallback == Some(sink)
      ensures listeners == old(listeners) && active == old(active) && nextRegistration == old(nextRegistration)
      ensures delivered == old(delivered)
    {
      debugCallback := Some(sink);
    }

    /** `log`: the entry goes to the current callback, and nowhere when none is set. */
    method Log(level: Level, message: string, now: nat)
      modifies this
      ensures delivered == old(delivered) + (match debugCallback
        case Some(sink) => [(sink, LogEntry(level, message, now))]
        case None => [])
      ensures delivered == old(delivered) + Deliveries(debugCallback, [(level, message)], now)
      ensures debugCallback == old(debugCallback)
      ensures listeners == old(listeners) && active == old(active) && nextRegistration == old(nextRegistration)
    {
      if debugCallback.Some? {
        delivered := delivered + [(debugCallback.value, LogEntry(level, message, now))];
      }
    }

    /** One `onValue` registration. */
    method Register() returns (reg: nat)
      requires Valid()
      modifies this
      ensures Valid()
      ensures reg == old(nextRegistration) && reg !in old(active)
      ensures active == old(active) + {reg} && nextRegistration == reg + 1
      ensures listeners == old(listeners) && debugCallback == old(debugCallback) && delivered == old(delivered)
    {
      reg := nextRegistration;
      active := active + {reg};
      nextRegistration := nextRegistration + 1;
    }

    /** `subscribeToBuilding`: one registration, its disposer stored under the building id. */
    method SubscribeToBuilding(buildingId: string, now: nat) returns (h: Handle)
      requires Valid()
      modifies this
      ensures Valid()
      ensures h == Handle(buildingId, [old(nextRegistration)], "Unsubscribing from building: " + buildingId)
      ensures active == old(active) + {old(nextRegistration)} && nextRegistration == old(nextRegistration) + 1
      ensures listeners == Set(old(listeners), buildingId, h.registrations)
      ensures debugCallback == old(debugCallback)
      ensures delivered == old(delivered) + Deliveries(debugCallback, [(Info, "Subscribing to building: " + buildingId)], now)
    {
      Log(Info, "Subscribing to building: " + buildingId, now);
      var reg := Register();
      h := Handle(buildingId, [reg], "Unsubscribing from building: " + buildingId);
      listeners := Set(listeners, buildingId, h.registrations);
    }

    /** `subscribeToAllBuildings`: two registrations, one stored disposer under "all-buildings", fresh caches. */
    method SubscribeToAllBuildings(now: nat) returns (h: Handle, sub: AllBuildingsSubscription)
      requires Valid()
      modifies this
      ensures Valid() && fresh(sub)
      ensures sub.buildingsData == [] && sub.rootBatchData == []
      ensures h == Handle(AllBuildingsKey, [old(nextRegistration), old(nextRegistration) + 1], "Unsubscribing from all buildings and root batch_data")
      ensures active == old(active) + {old(nextRegistration), old(nextRegistration) + 1}
      ensures nextRegistration == old(nextRegistration) + 2
      ensures listeners == Set(old(listeners), AllBuildingsKey, h.registrations)
      ensures debugCallback == old(debugCallback)
      ensures delivered == old(delivered) + Deliveries(debugCallback, [(Info, "Subscribing to all buildings and root batch_data")], now)
    {
      Log(Info, "Subscribing to all buildings and root batch_data", now);
      sub := new AllBuildingsSubscription();
      var buildingsReg := Register();
      var rootReg := Register();
      h := Handle(AllBuildingsKey, [buildingsReg, rootReg], "Unsubscribing from all buildings and root batch_data");
      listeners := Set(listeners, AllBuildingsKey, h.registrations);
    }

    /**
     * Calling a returned disposer: logs its message, cancels its registrations and deletes its key,
     * whatever is stored there now.
     */
    method Dispose(h: Handle, now: nat)
      requires Valid()
      modifies this
      ensures Valid()
      ensures active == old(active) - Elems(h.registrations)
      ensures listeners == Delete(old(listeners), h.key)
      ensures nextRegistration == old(nextRegistration)
      ensures debugCallback == old(debugCallback)
      ensures delivered == old(delivered) + Deliveries(debugCallback, [(Info, h.farewell)], now)
    {
      Log(Info, h.farewell, now);
      active := active - Elems(h.registrations);
      listeners := Delete(listeners, h.key);
    }

    /** `cleanup`: every stored disposer is invoked, then the registry is cleared. */
    method Cleanup()
      requires Valid()
      modifies this
      ensures Valid()
      ensures active == old(active) - Cancelled(old(listeners))
      ensures listeners == []
      ensures nextRegistration == old(nextRegistration)
      ensures debugCallback == old(debugCallback) && delivered == old(delivered)
    {
      var stored := listeners;
      var i := 0;
      while i < |stored|
        invariant 0 <= i <= |stored|
        invariant Valid()
        invariant active == old(active) - Cancelled(stored[..i])
        invariant listeners == old(listeners) && nextRegistration == old(nextRegistration)
        invariant debugCallback == old(debugCallback) && delivered == old(delivered)
      {
        assert stored[..i + 1][..i] == stored[..i];
        active := active - Elems(stored[i].1);
        i := i + 1;
      }
      assert stored[..i] == stored;
      listeners := [];
    }

    /** `addBuilding`: the record goes under the key `push` generated, which is returned. */
    method AddBuilding(db: Database, name: string, floors: seq<string>, sensorsPerFloor: Dict<seq<string>>, now: int, pushKey: string)
      returns (buildingId: string)
      modifies db
      ensures buildingId == pushKey
      ensures db.buildings == Set(old(db.buildings), pushKey, NewBuildingRecord(name, floors, sensorsPerFloor, now))
      ensures db.root == old(db.root)
    {
      db.SetBuilding(pushKey, NewBuildingRecord(name, floors, sensorsPerFloor, now));
      buildingId := pushKey;
    }

    /** `updateBuildingData`: the building node is replaced by a feed and a time. */
    method UpdateBuildingData(db: Database, buildingId: string, batchData: Feed, now: nat)
      modifies db, this
      ensures db.buildings == Set(old(db.buildings), buildingId, UpdatedRecord(batchData, now))
      ensures db.root == old(db.root)
      ensures listeners == old(listeners) && active == old(active) && nextRegistration == old(nextRegistration)
      ensures debugCallback == old(debugCallback)
      ensures delivered == old(delivered) + Deliveries(debugCallback,
        [(Info, "Updating data for building: " + buildingId), (Info, "Successfully updated building: " + buildingId)], now)
    {
      Log(Info, "Updating data for building: " + buildingId, now);
      db.SetBuilding(buildingId, UpdatedRecord(batchData, now));
      Log(Info, "Successfully updated building: " + buildingId, now);
      DeliveriesAppend(debugCallback, [(Info, "Updating data for building: " + buildingId)],
        [(Info, "Successfully updated building: " + buildingId)], now);
    }

    /** `deleteBuilding`: the node is removed, with a log before and after. */
    method DeleteBuilding(db: Database, buildingId: string, now: nat)
      modifies db, this
      ensures db.buildings == Delete(old(db.buildings), buildingId)
      ensures db.root == old(db.root)
      ensures listeners == old(listeners) && active == old(active) && nextRegistration == old(nextRegistration)
      ensures debugCallback == old(debugCallback)
      ensures delivered == old(delivered) + Deliveries(debugCallback,
        [(Info, "Deleting building: " + buildingId), (Info, "Successfully deleted building: " + buildingId)], now)
    {
      Log(Info, "Deleting building: " + buildingId, now);
      db.RemoveBuilding(buildingId);
      Log(Info, "Successfully deleted building: " + buildingId, now);
      DeliveriesAppend(debugCallback, [(Info, "Deleting building: " + buildingId)],
        [(Info, "Successfully deleted building: " + buildingId)], now);
    }

    /** `getAllBuildings`: the listing of the buildings node, empty when it does not exist. */
    method GetAllBuildings(db: Database) returns (bs: seq<Building>)
      ensures bs == AllBuildings(db.buildings)
    {
      bs := AllBuildings(db.buildings);
    }
  }

  /** Subscribing to a building and to all buildings, then cleaning up, leaves nothing live. */
  method SubscribeThenCleanup() returns (live: set<nat>, registry: Dict<seq<nat>>)
    ensures live == {} && registry == []
  {
    var s := new Service();
    var h1 := s.SubscribeToBuilding("b", 0);
    var h2, sub := s.SubscribeToAllBuildings(0);
    assert s.listeners == [("b", [0]), (AllBuildingsKey, [1, 2])];
    assert Cancelled(s.listeners) == {0, 1, 2} by {
      CancelledPair(("b", [0]), (AllBuildingsKey, [1, 2]));
    }
    s.Cleanup();
    live, registry := s.active, s.listeners;
  }

  /**
   * Two subscriptions to one building share a key: calling the older disposer deletes the newer
   * one's entry, so `cleanup` no longer reaches the newer registration.
   */
  method OlderDisposerOrphansNewer() returns (live: set<nat>, registry: Dict<seq<nat>>)
    ensures registry == [] && live == {1}
  {
    var s := new Service();
    var h1 := s.SubscribeToBuilding("b", 0);
    var h2 := s.SubscribeToBuilding("b", 0);
    s.Dispose(h1, 0);
    s.Cleanup();
    live, registry := s.active, s.listeners;
  }

  /** Entries go only to the most recently set callback, and nowhere before one is set. */
  method LogsReachLatestCallback(now: nat) returns (delivered: seq<(Sink, DebugLog)>)
    ensures delivered == [(Sink(2), LogEntry(Info, "second", now))]
  {
    var s := new Service();
    s.Log(Info, "dropped", now);
    s.SetDebugCallback(Sink(1));
    s.SetDebugCallback(Sink(2));
    s.Log(Info, "second", now);
    delivered := s.delivered;
  }

  /** A building subscription logs once when made and once when its disposer runs, with the building id. */
  method SubscribeDisposeLogs(now: nat) returns (delivered: seq<(Sink, DebugLog)>)
    ensures delivered == [(Sink(1), LogEntry(Info, "Subscribing to building: b", now)),
                          (Sink(1), LogEntry(Info, "Unsubscribing from building: b", now))]
  {
    var s := new Service();
    s.SetDebugCallback(Sink(1));
    var h := s.SubscribeToBuilding("b", now);
    assert "Subscribing to building: " + "b" == "Subscribing to building: b";
    assert h.farewell == "Unsubscribing from building: b";
    s.Dispose(h, now);
    delivered := s.delivered;
  }
}
