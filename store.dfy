/**
 * The realtime database, reduced to the two nodes the dashboard reads and writes: the
 * `buildings` object (building id to record) and the root `batch_data` feed the devices upload
 * to. The database keeps no empty objects, so a missing node and an empty one are the same value.
 */
module Store {
  import opened Wrappers
  import opened Dict
  import opened Types

  /** The record stored under `buildings/<id>`, or the empty record when there is none. */
  function RecordOr(buildings: Dict<BuildingRecord>, id: string): (r: BuildingRecord)
    ensures id !in Keys(buildings) ==> r == EmptyRecord
    ensures id in Keys(buildings) ==> Get(buildings, id) == Some(r)
  {
    match Get(buildings, id)
    case Some(rec) => rec
    case None => EmptyRecord
  }

  class Database {
    var buildings: Dict<BuildingRecord>
    var root: Feed

    constructor (buildings: Dict<BuildingRecord>, root: Feed)
      ensures this.buildings == buildings && this.root == root
    {
      this.buildings := buildings;
      this.root := root;
    }

    /** `get(ref(database, 'buildings/<id>'))`: the record, or None when the node does not exist. */
    function Building(id: string): (r: Option<BuildingRecord>)
      reads this
      ensures r.Some? <==> id in Keys(buildings)
    {
      Get(buildings, id)
    }

    /** `set(ref(database, 'buildings/<id>'), record)`: the whole node is replaced. */
    method SetBuilding(id: string, record: BuildingRecord)
      modifies this
      ensures buildings == Set(old(buildings), id, record)
      ensures root == old(root)
    {
      buildings := Set(buildings, id, record);
    }

    /** `set(ref(database, 'buildings/<id>/lastUpdated'), t)`: a missing building is created around the field. */
    method SetLastUpdated(id: string, t: int)
      modifies this
      ensures buildings == Set(old(buildings), id, RecordOr(old(buildings), id).(lastUpdated := t))
      ensures root == old(root)
    {
      buildings := Set(buildings, id, RecordOr(buildings, id).(lastUpdated := t));
    }

    /** `set(ref(database, 'buildings/<id>/batch_data'), feed)`. */
    method SetBuildingBatch(id: string, feed: Feed)
      modifies this
      ensures buildings == Set(old(buildings), id, RecordOr(old(buildings), id).(batchData := feed))
      ensures root == old(root)
    {
      buildings := Set(buildings, id, RecordOr(buildings, id).(batchData := feed));
    }

    /** `remove(ref(database, 'buildings/<id>'))`. */
    method RemoveBuilding(id: string)
      modifies this
      ensures buildings == Delete(old(buildings), id)
      ensures root == old(root)
    {
      buildings := Delete(buildings, id);
    }

    /** `set(ref(database, 'batch_data'), feed)`. */
    method SetRoot(feed: Feed)
      modifies this
      ensures root == feed
      ensures buildings == old(buildings)
    {
      root := feed;
    }
  }
}
