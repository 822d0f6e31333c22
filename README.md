# Building monitoring dashboard: a Dafny model of its core

The dashboard shows 3-axis accelerometer telemetry that ESP32 boards upload to a Firebase
Realtime Database. It lists buildings, charts each (floor, sensor) history and imports
telemetry. This project models the parts of the web application that have precisely
statable behaviour and proves properties of them:

- **Application reducer** (`AppContext`): the closed action vocabulary, the initial state and
  the pure reducer. This includes its 100-entry debug-log window, the selection clearing on
  remove, and the debug toggle.
- **Sensor history and building statistics** (`BuildingCard`):
  - the nested loops that collect the readings of one (floor, sensor) from a building's
    batches;
  - the stable sort by timestamp and the newest-100 window;
  - the per-sensor chart settings map;
  - the building statistics.
- **Firebase service** (`FirebaseService`, over the store abstraction `Store`):
  - the all-buildings subscription, whose two caches and merge substitute the root telemetry
    feed for the building "batch_data";
  - the listener registry with its disposers and `cleanup`;
  - the connection-test decision;
  - the record `addBuilding` writes, and the other writes;
  - debug-log delivery to the most recently set callback.
- **Add-building form** (`Sidebar`): the splitting, trimming and validation of the name,
  floor list and sensor layout. The examples, including the form's defaults, are in
  `SidebarExamples`.
- **Chart data preparation** (`SensorCard`): the four parallel arrays, their joint stable
  sort, the chart toggles and the "latest" reading.
- **Data import** (`DataImport`): the right-biased merge into the root feed, the ceil(n/3)
  partition of batch ids into at most three new buildings, and the import check.
- **Cleanup** (`Cleanup`): normalisation of the root-feed building's record, and the sample
  batch import.
- **Configuration guard** (`FirebaseConfig`): the required-field check and the error raised
  before the app is initialised.

Shared building blocks:

- `Dict` models JavaScript objects and Maps as ordered association lists:
  - assigning to an existing key keeps its place;
  - assigning to a new key appends it;
  - an assignment `obj[k] = v` on an object literal (`Assign`) does not create an own key when
    k is `__proto__`, since that name selects the prototype instead; `Map.set`, spreads and
    database writes (`Set`) treat it as an ordinary key;
  - `{...a, ...b}` folds b's entries onto a.
- `JsString` models `trim` with ECMAScript's exact white-space set, `split` and `join`.
- `StableSort` is a stable sort by an integer key. Array.prototype.sort has been required to be
  stable since ECMAScript 2019.
- `Types` holds the entities.

Modelling conventions:

- The clock (`Date.now()`) is a `now` parameter.
- The keys Firebase's `push` generates are parameters.
- Probe outcomes of the connection test are inputs.
- The database is a class with two fields, `buildings` and the root feed `root`. The store
  never keeps an empty object, so an absent node and an empty one are the same value.

## Model

| member | source | states |
|---|---|---|
| AppContext.InitialStateSpec | Webapp/BuildingMonitoring/src/context/AppContext.tsx:20-27 | The app starts with no buildings, loading, disconnected, nothing selected, no logs and the debug panel hidden; a first SET_BUILDINGS ends loading |
| AppContext.FrameLemma | Webapp/BuildingMonitoring/src/context/AppContext.tsx:30-83 | Every action leaves each state field its case does not name unchanged |
| AppContext.UnrecognisedIsIdentity | Webapp/BuildingMonitoring/src/context/AppContext.tsx:80-81 | An action with an unknown type returns the state itself |
| AppContext.SetBuildingsSpec | Webapp/BuildingMonitoring/src/context/AppContext.tsx:38-39 | SET_BUILDINGS replaces the list wholesale and clears `loading` |
| AppContext.AddBuildingSpec | Webapp/BuildingMonitoring/src/context/AppContext.tsx:41-45 | ADD_BUILDING appends the building at the end: length grows by one and the old list is the prefix |
| AppContext.AddBuildingAllowsDuplicateIds | Webapp/BuildingMonitoring/src/context/AppContext.tsx:41-45 | Adding the same building twice yields two entries with one id: there is no duplicate check |
| AppContext.UpdateBuildingSpec | Webapp/BuildingMonitoring/src/context/AppContext.tsx:47-53 | UPDATE_BUILDING keeps length and order; every entry with the payload's id becomes the payload, all others are untouched |
| AppContext.UpdateBuildingIdempotent | Webapp/BuildingMonitoring/src/context/AppContext.tsx:47-53 | Applying the same update twice is applying it once |
| AppContext.RemoveBuildingSpec | Webapp/BuildingMonitoring/src/context/AppContext.tsx:55-60 | After REMOVE_BUILDING the list holds exactly the old entries with another id, each as often as before, as a subsequence (relative order kept) |
| AppContext.RemoveBuildingSelection | Webapp/BuildingMonitoring/src/context/AppContext.tsx:55-60 | The selection becomes null exactly when it was the removed id (or already null), and is otherwise unchanged |
| AppContext.AddDebugLogSpec | Webapp/BuildingMonitoring/src/context/AppContext.tsx:65-69 | ADD_DEBUG_LOG yields min(old, 99) + 1 entries, at most 100, ending with the new entry after the newest old ones in order |
| AppContext.LogWindowBounded | Webapp/BuildingMonitoring/src/context/AppContext.tsx:65-69 | Starting from at most 100 logs, any action sequence keeps at most 100 |
| AppContext.LogWindowIsFifo | Webapp/BuildingMonitoring/src/context/AppContext.tsx:65-69 | Logging entries one by one keeps exactly the newest 100 of the old and new entries together |
| AppContext.WindowStep | Webapp/BuildingMonitoring/src/context/AppContext.tsx:68 | `slice(-99)` then append equals the newest 100 of the window plus the entry |
| AppContext.ClearDebugLogsSpec | Webapp/BuildingMonitoring/src/context/AppContext.tsx:71-72 | CLEAR_DEBUG_LOGS empties the log |
| AppContext.ToggleDebugSpec | Webapp/BuildingMonitoring/src/context/AppContext.tsx:74-78 | TOGGLE_DEBUG with a value sets it, without one negates; two payload-less toggles restore the state |
| AppContext.ConnectedIsLatest | Webapp/BuildingMonitoring/src/context/AppContext.tsx:35-36 | After a sequence of actions `connected` is the value of the last SET_CONNECTED, or the original one |
| BuildingCard.CollectReadings | Webapp/BuildingMonitoring/src/components/BuildingCard/BuildingCard.tsx:44-65 | The nested loops push exactly the readings the per-point contribution rule admits, batches then points in order |
| BuildingCard.ExtractSensorData | Webapp/BuildingMonitoring/src/components/BuildingCard/BuildingCard.tsx:35-92 | Whichever branch the building id takes, the result is the newest 100 of the matching readings, stably sorted by timestamp |
| BuildingCard.ExtractedSpec | Webapp/BuildingMonitoring/src/components/BuildingCard/BuildingCard.tsx:89-91 | The history has min(100, matches) readings, ascending by timestamp, is the newest suffix of the sorted matches and draws only from them |
| BuildingCard.ContributionRules | Webapp/BuildingMonitoring/src/components/BuildingCard/BuildingCard.tsx:50-62 | A data point contributes iff its floor entry is an object, its timestamp is nonzero and the sensor entry is an object with `x`; the reading carries the point's timestamp |
| BuildingCard.PointReadingsMember | Webapp/BuildingMonitoring/src/components/BuildingCard/BuildingCard.tsx:48-64 | A reading is collected from a batch iff some data point of it contributes that reading |
| BuildingCard.BatchReadingsMember | Webapp/BuildingMonitoring/src/components/BuildingCard/BuildingCard.tsx:46-65 | A reading is collected from the feed iff some batch contributes it |
| BuildingCard.ExtractedReadingsOrigin | Webapp/BuildingMonitoring/src/components/BuildingCard/BuildingCard.tsx:58-62 | Every shown reading comes from a data point whose timestamp it carries and whose sensor entry it copies |
| BuildingCard.ExtractedAreMatches | Webapp/BuildingMonitoring/src/components/BuildingCard/BuildingCard.tsx:50-62 | Every shown reading has an `x` value and a nonzero timestamp |
| BuildingCard.ChartConfigSpec | Webapp/BuildingMonitoring/src/components/BuildingCard/BuildingCard.tsx:16-32 | A key never set reads as {line, grid, animated}; an update is read back and changes no other key |
| BuildingCard.ConfigKeysCanCollide | Webapp/BuildingMonitoring/src/components/BuildingCard/BuildingCard.tsx:24 | Two different (floor, sensor) pairs can share the settings key `floor-sensor` |
| BuildingCard.SumLengthsIsConcatLength | Webapp/BuildingMonitoring/src/components/BuildingCard/BuildingCard.tsx:96-97 | The `reduce` over lengths is the length of the concatenation |
| BuildingCard.BuildingStats | Webapp/BuildingMonitoring/src/components/BuildingCard/BuildingCard.tsx:95-112 | Total sensors and data points are the sizes of the concatenated lists, active iff some batch is non-empty, recent iff `lastUpdated` is nonzero and under 30 s old |
| StableSort.SortBy | Webapp/BuildingMonitoring/src/components/BuildingCard/BuildingCard.tsx:89 | The sort is sorted, a permutation of its input and stable: for every key the elements with it keep their order |
| StableSort.SortByUnique | Webapp/BuildingMonitoring/src/components/SensorCard/SensorCard.tsx:70 | A stable sort's result is unique: any sorted sequence with the same runs is it |
| StableSort.SortBySorted | Webapp/BuildingMonitoring/src/components/SensorCard/SensorCard.tsx:70 | Sorting an already sorted sequence leaves it unchanged |
| FirebaseService.Merge | Webapp/BuildingMonitoring/src/services/firebaseService.ts:120-137 | One element per cached building in enumeration order with that id; "batch_data" gets the root feed and keeps its other fields, every other record passes unchanged |
| FirebaseService.MergeIds | Webapp/BuildingMonitoring/src/services/firebaseService.ts:121 | The merged ids are exactly the cached keys in order |
| FirebaseService.MergeWithoutRootFeed | Webapp/BuildingMonitoring/src/services/firebaseService.ts:121-135 | Without a "batch_data" building the merge is the plain listing |
| FirebaseService.MergeDiffersOnlyInRootFeed | Webapp/BuildingMonitoring/src/services/firebaseService.ts:123-133 | The merge differs from the plain listing only in the inline feed of "batch_data" |
| FirebaseService.AllBuildings | Webapp/BuildingMonitoring/src/services/firebaseService.ts:45-62 | `getAllBuildings` lists each stored building with its key as id, in order |
| FirebaseService.BuildingEvent | Webapp/BuildingMonitoring/src/services/firebaseService.ts:78-90 | A single-building event yields the building with the subscribed id, or nothing when absent |
| FirebaseService.AllBuildingsSubscription.OnBuildings | Webapp/BuildingMonitoring/src/services/firebaseService.ts:140-150 | A buildings event replaces only the buildings cache (absent gives empty) and emits the merge of both caches |
| FirebaseService.AllBuildingsSubscription.OnRoot | Webapp/BuildingMonitoring/src/services/firebaseService.ts:153-164 | A root event replaces only the root cache (absent gives empty) and emits the merge of both caches |
| FirebaseService.RootEventFirst | Webapp/BuildingMonitoring/src/services/firebaseService.ts:117-118 | A root event before any buildings event emits an empty list |
| FirebaseService.InterleavedEvents | Webapp/BuildingMonitoring/src/services/firebaseService.ts:140-164 | Each of four interleaved events emits the merge of the latest value of both caches |
| FirebaseService.LogEntry | Webapp/BuildingMonitoring/src/services/firebaseService.ts:23-32 | A log entry carries the level, message and time, with the time's decimal digits as id |
| FirebaseService.TestConnection | Webapp/BuildingMonitoring/src/services/firebaseService.ts:249-283 | Connected iff `.info/connected` reads true or the root read succeeds; false only when the root read fails; the opening "Testing" log, the warning iff the info read failed, the error iff not connected, two logs or three when the info read failed, and the last log naming how the test ended |
| FirebaseService.RootReadOnlyAsFallback | Webapp/BuildingMonitoring/src/services/firebaseService.ts:259-262 | With `.info/connected` true the root read's outcome does not matter |
| FirebaseService.NewBuildingRecord | Webapp/BuildingMonitoring/src/services/firebaseService.ts:197-204 | The new record has the given name and layout, an empty feed and createdAt == lastUpdated == now |
| FirebaseService.UpdatedRecord | Webapp/BuildingMonitoring/src/services/firebaseService.ts:223-226 | `updateBuildingData` writes a node holding only the feed and the time |
| FirebaseService.Cancelled | Webapp/BuildingMonitoring/src/services/firebaseService.ts:288-291 | The registrations the cleanup loop cancels include every stored disposer's |
| FirebaseService.Service.SetDebugCallback | Webapp/BuildingMonitoring/src/services/firebaseService.ts:18-20 | The callback is replaced and nothing else changes |
| FirebaseService.Deliveries | Webapp/BuildingMonitoring/src/services/firebaseService.ts:23-32 | Logging messages in order hands the set callback one entry per message, in that order, with the level, the message and the time; none when no callback is set |
| FirebaseService.Service.Log | Webapp/BuildingMonitoring/src/services/firebaseService.ts:23-32 | An entry goes to the current callback only, and to none when unset; its delivery is one step of `Deliveries` |
| FirebaseService.Service.SubscribeToBuilding | Webapp/BuildingMonitoring/src/services/firebaseService.ts:70-106 | Logs "Subscribing to building: id"; one new live registration, whose disposer is stored under the building id and logs "Unsubscribing from building: id" |
| FirebaseService.Service.SubscribeToAllBuildings | Webapp/BuildingMonitoring/src/services/firebaseService.ts:109-181 | Logs the subscription; two new live registrations stored under "all-buildings", with fresh empty caches, and a disposer logging its unsubscription |
| FirebaseService.Service.Dispose | Webapp/BuildingMonitoring/src/services/firebaseService.ts:97-101 | A disposer logs its message, cancels its registrations and deletes its key from the registry (the all-buildings disposer at lines 171-175 likewise) |
| FirebaseService.Service.Cleanup | Webapp/BuildingMonitoring/src/services/firebaseService.ts:286-293 | Cleanup cancels every stored disposer's registrations and leaves the registry empty |
| FirebaseService.Service.AddBuilding | Webapp/BuildingMonitoring/src/services/firebaseService.ts:184-215 | The new record is written under the pushed key, which is returned; the root feed is untouched |
| FirebaseService.Service.UpdateBuildingData | Webapp/BuildingMonitoring/src/services/firebaseService.ts:218-233 | The building's node is replaced by the feed-and-time node, between the "Updating data" and "Successfully updated" logs |
| FirebaseService.Service.DeleteBuilding | Webapp/BuildingMonitoring/src/services/firebaseService.ts:236-246 | The building's node is removed, between the "Deleting" and "Successfully deleted" logs |
| FirebaseService.Service.GetAllBuildings | Webapp/BuildingMonitoring/src/services/firebaseService.ts:45-67 | Returns the listing of the stored buildings |
| FirebaseService.SubscribeThenCleanup | Webapp/BuildingMonitoring/src/services/firebaseService.ts:286-293 | After subscribing to a building and to all buildings, cleanup leaves nothing live and the registry empty |
| FirebaseService.OlderDisposerOrphansNewer | Webapp/BuildingMonitoring/src/services/firebaseService.ts:95-101 | Subscribing twice to one building and disposing the first deletes the key, so cleanup misses the second, which stays live |
| FirebaseService.LogsReachLatestCallback | Webapp/BuildingMonitoring/src/services/firebaseService.ts:18-32 | With no callback a log is dropped; after two callbacks are set only the second receives |
| FirebaseService.SubscribeDisposeLogs | Webapp/BuildingMonitoring/src/services/firebaseService.ts:75-99 | With a callback set, subscribing to a building and disposing it deliver the two messages naming that building, in order |
| Store.RecordOr | Webapp/BuildingMonitoring/src/services/dataImportService.ts:76-77 | Writing under a missing building starts from the empty record, else from the stored one |
| Store.Database.SetLastUpdated | Webapp/BuildingMonitoring/src/services/dataImportService.ts:76-77 | A write to `buildings/<id>/lastUpdated` sets only that field, creating the node if needed |
| Store.Database.SetBuildingBatch | Webapp/BuildingMonitoring/src/services/dataImportService.ts:128-129 | A write to `buildings/<id>/batch_data` sets only that field |
| Sidebar.Contribution | Webapp/BuildingMonitoring/src/components/Sidebar/Sidebar.tsx:38-44 | A contributing segment always carries a non-empty sensor list |
| Sidebar.ContributionSpec | Webapp/BuildingMonitoring/src/components/Sidebar/Sidebar.tsx:38-44 | A segment contributes iff its first two `:` pieces are non-empty before trimming and some sensor token survives. The floor name holds no `:` and has no white space at either end; every sensor is non-empty, comma-free and has no white space at either end |
| Sidebar.ParseAddBuilding | Webapp/BuildingMonitoring/src/components/Sidebar/Sidebar.tsx:16-53 | The loop over the `;` segments computes the layout the function `Parse` specifies, with the same three errors in order |
| Sidebar.LastAssignmentWins | Webapp/BuildingMonitoring/src/components/Sidebar/Sidebar.tsx:43 | A key maps to a value iff it is not `__proto__` and the last contribution for that key carried it |
| Sidebar.LastSegmentWins | Webapp/BuildingMonitoring/src/components/Sidebar/Sidebar.tsx:37-46 | A repeated floor name other than `__proto__` takes the sensors of its last contributing segment |
| Sidebar.SensorsPerFloorEmpty | Webapp/BuildingMonitoring/src/components/Sidebar/Sidebar.tsx:48 | The layout is empty iff no segment contributes a floor other than `__proto__` |
| Sidebar.SensorsPerFloorWellFormed | Webapp/BuildingMonitoring/src/components/Sidebar/Sidebar.tsx:34-46 | Layout keys are distinct and every floor's sensor list is non-empty |
| Sidebar.AssignAllUnique | Webapp/BuildingMonitoring/src/components/Sidebar/Sidebar.tsx:43 | Assigning a sequence of contributions into an object never yields a key twice |
| Sidebar.ParseErrors | Webapp/BuildingMonitoring/src/components/Sidebar/Sidebar.tsx:17-51 | Each of the three errors arises exactly when its condition holds and the earlier ones do not; the layout error also covers a layout whose only floors are `__proto__` |
| Sidebar.ParseSuccess | Webapp/BuildingMonitoring/src/components/Sidebar/Sidebar.tsx:27-46 | On success the floors are non-empty, trimmed and comma-free, the layout non-empty with distinct keys and non-empty lists |
| Sidebar.SubmitAddBuilding | Webapp/BuildingMonitoring/src/components/Sidebar/Sidebar.tsx:16-53 | An error writes nothing; success writes the new record with the untrimmed name and the parsed layout under the pushed key |
| JsString.TrimSpec | Webapp/BuildingMonitoring/src/components/Sidebar/Sidebar.tsx:27 | `trim` removes exactly the leading and trailing white space |
| JsString.TrimEmpty | Webapp/BuildingMonitoring/src/components/Sidebar/Sidebar.tsx:17 | A string trims to empty iff it is all white space |
| JsString.JoinSplit | Webapp/BuildingMonitoring/src/components/Sidebar/Sidebar.tsx:35 | Joining the pieces of a split restores the string |
| JsString.SplitJoin | Webapp/BuildingMonitoring/src/components/Sidebar/Sidebar.tsx:35 | Splitting a join of separator-free pieces gives the pieces back |
| JsString.TokensSpec | Webapp/BuildingMonitoring/src/components/Sidebar/Sidebar.tsx:27 | Every token is non-empty, separator-free, trimmed and the trim of some piece |
| JsString.TokensComplete | Webapp/BuildingMonitoring/src/components/Sidebar/Sidebar.tsx:27 | Every piece that trims to non-empty yields a token |
| JsString.TokensOfJoin | Webapp/BuildingMonitoring/src/components/Sidebar/Sidebar.tsx:27 | Joining clean tokens and re-tokenising gives them back |
| JsString.TokensEmpty | Webapp/BuildingMonitoring/src/components/Sidebar/Sidebar.tsx:28 | No tokens iff every piece is white space |
| SidebarExamples.DefaultsParse | Webapp/BuildingMonitoring/src/components/Sidebar/Sidebar.tsx:11-12 | The default floors parse to [E1, E2] and the default layout to {E1: [M1, M2], E2: [S1, S2]} |
| SidebarExamples.BlankFloorBecomesEmptyKey | Webapp/BuildingMonitoring/src/components/Sidebar/Sidebar.tsx:39-40 | The segment " :M1" contributes under the key "" |
| SidebarExamples.EmptySensorListSkipped | Webapp/BuildingMonitoring/src/components/Sidebar/Sidebar.tsx:41-44 | The segment "E1:", whose sensor piece is empty, contributes nothing |
| SidebarExamples.BlankSensorListSkipped | Webapp/BuildingMonitoring/src/components/Sidebar/Sidebar.tsx:41-44 | The segment "E1: , ", whose sensor piece holds only blanks and a comma, contributes nothing |
| SidebarExamples.SecondColonIgnored | Webapp/BuildingMonitoring/src/components/Sidebar/Sidebar.tsx:38 | Text after a second `:` is ignored |
| SidebarExamples.UnlistedFloorSegment | Webapp/BuildingMonitoring/src/components/Sidebar/Sidebar.tsx:37-44 | The segment "E9:M1" contributes E9: [M1] whatever the floor list says |
| SidebarExamples.SensorFloorsUnchecked | Webapp/BuildingMonitoring/src/components/Sidebar/Sidebar.tsx:48-53 | A layout naming a floor absent from the floor list is accepted |
| SidebarExamples.ProtoFloorLeavesNoLayout | Webapp/BuildingMonitoring/src/components/Sidebar/Sidebar.tsx:41-51 | A layout whose only floor is `__proto__` is rejected with the missing-layout error |
| SensorCard.ProcessData | Webapp/BuildingMonitoring/src/components/SensorCard/SensorCard.tsx:46-84 | The four arrays have the input's length, timestamps ascend, and the rows are the stable sort by time of the normalised input rows |
| SensorCard.NormalizeSpec | Webapp/BuildingMonitoring/src/components/SensorCard/SensorCard.tsx:55-59 | A missing or zero timestamp becomes now; a missing axis value becomes 0; other values are kept |
| SensorCard.TogglesSpec | Webapp/BuildingMonitoring/src/components/SensorCard/SensorCard.tsx:274-300 | Line and Dots set only the type; Grid and Anim negate only their own flag; toggles are involutions |
| SensorCard.LatestIsLastReceived | Webapp/BuildingMonitoring/src/components/SensorCard/SensorCard.tsx:216 | The latest reading is the last received, none for no data |
| SensorCard.LatestIsNotNewest | Webapp/BuildingMonitoring/src/components/SensorCard/SensorCard.tsx:216 | The latest reading need not be the one with the greatest timestamp |
| DataImport.ConnectedIsTestConnection | Webapp/BuildingMonitoring/src/services/dataImportService.ts:37-38 | The import's connection verdict is the connection test's |
| DataImport.ImportBatchData | Webapp/BuildingMonitoring/src/services/dataImportService.ts:32-86 | Unconnected: an error and no write. Connected: metadata created only if missing, the root feed becomes existing ⊕ import, lastUpdated set, "batch_data" returned |
| DataImport.RootFeedMetadata | Webapp/BuildingMonitoring/src/services/dataImportService.ts:48-59 | The created metadata: main-building name, default layout, empty feed, both times now |
| DataImport.RootImportMetadata | Webapp/BuildingMonitoring/src/services/dataImportService.ts:43-61 | Existing metadata is kept apart from lastUpdated; other buildings are untouched |
| DataImport.RootMergeIsRightBiased | Webapp/BuildingMonitoring/src/services/dataImportService.ts:67-73 | An imported batch id takes the import's array, existing-only ids are kept, and no other id appears |
| DataImport.ChunkSize | Webapp/BuildingMonitoring/src/services/dataImportService.ts:102 | The chunk size is ceil(n/3) |
| DataImport.Slice | Webapp/BuildingMonitoring/src/services/dataImportService.ts:107 | `slice` with in-range bounds is the sub-sequence, and empty when the start is past the end |
| DataImport.ChunksPartition | Webapp/BuildingMonitoring/src/services/dataImportService.ts:99-110 | At most three chunks, each non-empty, chunk j is keys[j c .. min(j c + c, n)), together exactly the key list; no keys, no chunks |
| DataImport.ChunksDisjoint | Webapp/BuildingMonitoring/src/services/dataImportService.ts:104-116 | With distinct keys no key falls into two chunks |
| DataImport.FourIdsMakeTwoChunks | Webapp/BuildingMonitoring/src/services/dataImportService.ts:102-109 | Four ids make two chunks of two, so the loop stops after two buildings |
| DataImport.SelectGet | Webapp/BuildingMonitoring/src/services/dataImportService.ts:112-115 | A building's subset holds exactly its chunk's batch ids, except `__proto__`, with the imported arrays |
| DataImport.SelectKeys | Webapp/BuildingMonitoring/src/services/dataImportService.ts:112-115 | The `forEach` builds that subset |
| DataImport.ImportAsMultipleBuildings | Webapp/BuildingMonitoring/src/services/dataImportService.ts:89-141 | Unconnected: an error and no write. Connected: one building per chunk, named "Building i", under the pushed keys, each holding its chunk; the ids are returned in order |
| DataImport.PlacedGet | Webapp/BuildingMonitoring/src/services/dataImportService.ts:118-131 | With distinct pushed keys, building j ends with its chunk's record |
| DataImport.Verified | Webapp/BuildingMonitoring/src/services/dataImportService.ts:144-161 | Verified iff the building exists and has at least one batch id |
| DataImport.VerifyImportedData | Webapp/BuildingMonitoring/src/services/dataImportService.ts:144-156 | The read implements that predicate |
| DataImport.MultiImportVerifies | Webapp/BuildingMonitoring/src/services/dataImportService.ts:104-131 | A building a multi import creates passes verification iff its chunk holds a batch id other than `__proto__` |
| DataImport.SelectNonEmpty | Webapp/BuildingMonitoring/src/services/dataImportService.ts:112-115 | A subset is non-empty iff its chunk holds a batch id other than `__proto__` |
| DataImport.ProtoOnlyFeedDoesNotVerify | Webapp/BuildingMonitoring/src/services/dataImportService.ts:99-131 | A feed whose only batch id is `__proto__` makes one building that fails verification |
| DataImport.RootImportDoesNotVerify | Webapp/BuildingMonitoring/src/services/dataImportService.ts:46-61 | A root import that creates the "batch_data" record leaves it failing verification, since its data lives at the root |
| Cleanup.CleanBuildingData | Webapp/BuildingMonitoring/src/services/firebaseCleanupService.ts:26-36 | The cleaned name is non-empty and truthy names and creation times survive; layout reset to defaults, feed emptied, lastUpdated now |
| Cleanup.CleanFallbacks | Webapp/BuildingMonitoring/src/services/firebaseCleanupService.ts:27-33 | A falsy name becomes the main building's name, a falsy creation time becomes now |
| Cleanup.CleanIdempotent | Webapp/BuildingMonitoring/src/services/firebaseCleanupService.ts:26-36 | Cleaning twice at one time is cleaning once |
| Cleanup.CleanForgetsLayoutAndData | Webapp/BuildingMonitoring/src/services/firebaseCleanupService.ts:28-35 | The result depends on the old record only through its name and creation time |
| Cleanup.CleanedRecordHasNoHistory | Webapp/BuildingMonitoring/src/services/firebaseCleanupService.ts:35 | No chart can show data from the cleaned record |
| Cleanup.CleanupFirebaseStructure | Webapp/BuildingMonitoring/src/services/firebaseCleanupService.ts:11-47 | The root feed is not written; the record is rewritten only if it exists |
| Cleanup.ImportSampleData | Webapp/BuildingMonitoring/src/services/firebaseCleanupService.ts:89-99 | The root feed becomes existing ⊕ sample; buildings are untouched |
| Cleanup.SampleMerge | Webapp/BuildingMonitoring/src/services/firebaseCleanupService.ts:94-97 | Batch "16226" becomes the sample and every other batch is kept |
| Cleanup.SampleHistory | Webapp/BuildingMonitoring/src/services/firebaseCleanupService.ts:62-87 | The sample's E1/M1 history is (-0.8, -1.3, 10.47) at 15804 then (-0.79, -1.35, 10.39) at 15890 |
| FirebaseConfig.Every | Webapp/BuildingMonitoring/src/config/firebase.ts:18-25 | The check reports at most one field, and none iff it passes |
| FirebaseConfig.EveryIff | Webapp/BuildingMonitoring/src/config/firebase.ts:18-25 | `every` passes iff every listed field has a value |
| FirebaseConfig.EveryReportsFirst | Webapp/BuildingMonitoring/src/config/firebase.ts:18-25 | A failing check reports the first field without a value, all earlier ones having one |
| FirebaseConfig.ValidateConfigSpec | Webapp/BuildingMonitoring/src/config/firebase.ts:16-27 | Valid iff apiKey, authDomain, databaseURL and projectId all have values |
| FirebaseConfig.MissingValues | Webapp/BuildingMonitoring/src/config/firebase.ts:20 | Unset, "" and "undefined" are missing; any other string is a value |
| FirebaseConfig.OptionalFieldsIgnored | Webapp/BuildingMonitoring/src/config/firebase.ts:17 | storageBucket, messagingSenderId and appId never affect the check |
| FirebaseConfig.EveryAgrees | Webapp/BuildingMonitoring/src/config/firebase.ts:18-25 | Two configurations agreeing on the listed fields get the same verdict and report |
| FirebaseConfig.InitializeFirebase | Webapp/BuildingMonitoring/src/config/firebase.ts:38-50 | An invalid configuration gives the error "Firebase configuration error" instead of an app |
| FirebaseConfig.InitializeFirebaseSpec | Webapp/BuildingMonitoring/src/config/firebase.ts:38-50 | The app starts exactly when the four required fields have values |
| Dict.Set | Webapp/BuildingMonitoring/src/components/Sidebar/Sidebar.tsx:43 | Assignment reads back, changes no other key, keeps an existing key's place and appends a new key |
| Dict.Assign | Webapp/BuildingMonitoring/src/components/Sidebar/Sidebar.tsx:43 | Object-literal assignment is Set for every key but `__proto__`, which leaves the object unchanged |
| Dict.SetTwice | Webapp/BuildingMonitoring/src/components/Sidebar/Sidebar.tsx:43 | A second assignment to one key overwrites the first in place |
| Dict.Delete | Webapp/BuildingMonitoring/src/services/firebaseService.ts:100 | `delete` removes the key, touches no other and keeps keys distinct |
| Dict.SpreadGet | Webapp/BuildingMonitoring/src/services/dataImportService.ts:68-71 | In `{...a, ...b}` b's keys take b's values and the others a's |
| Dict.SpreadKeys | Webapp/BuildingMonitoring/src/services/dataImportService.ts:68-71 | The keys of `{...a, ...b}` are exactly those of a and b |
| Dict.SpreadUnique | Webapp/BuildingMonitoring/src/services/dataImportService.ts:68-71 | Spreading into an object with distinct keys keeps keys distinct |
| Dict.SpreadIsUnion | Webapp/BuildingMonitoring/src/services/dataImportService.ts:68-71 | As maps, `{...a, ...b}` is the right-biased union |
| Types.LastN | Webapp/BuildingMonitoring/src/components/BuildingCard/BuildingCard.tsx:91 | `slice(-n)` keeps the last min(n, length) elements |

## Left out

- Firebase SDK failures: a rejected `get`, `set`, `push` or `remove`, and the catch blocks that log and rethrow, are not modelled. Every store operation succeeds. The exceptions are the connection test's two probes, which are inputs, and the connection error of the imports. `verifyImportedData`'s catch returning false is not modelled for the same reason.
- Subscription timing: `onValue` listeners are modelled by the event methods the caller invokes, in any order. Real delivery timing and ordering across subscriptions are not modelled.
- Generated push keys are parameters. Their freshness is not modelled: `ImportAsMultipleBuildings` accepts any three keys, and the lemmas that need distinct keys require them.
- JavaScript's enumeration of integer-like object keys in ascending order is not re-derived. The order of a dictionary is taken as given.
- Each call models `Date.now()` by one `now` parameter, although the source reads the clock several times within one call (for example createdAt and lastUpdated).
- A building record's own stored `id` field is not modelled. `{ id, ...building }` lets such a field override the key, but records are taken to hold only the declared fields.
- The logs `firebaseService` emits in the imports' connection test, and those of `getAllBuildings`, `addBuilding`, `cleanup` and the event handlers, are not routed to the debug callback. `Service.Log` and `TestConnection` model the delivery rule and the test's own messages; `SubscribeToBuilding`, `SubscribeToAllBuildings`, the disposers (`Dispose`), `UpdateBuildingData` and `DeleteBuilding` do deliver theirs.
- The DebugLog `data` payload, all `console` output, `alert` and `window.confirm` are not modelled.
- NaN, and floating-point arithmetic such as the magnitude and relative-time labels of the sensor card, are not modelled. The axis values are reals that are only copied.
- A missing name is the empty string and a missing time is 0 in `BuildingRecord`, which is how the record's falsy checks read them. Non-string names are not modelled.
- The provider's effects and its `actions` object in `AppContext.tsx` (the initial fetch, the subscriptions, the `actions.addBuilding` wrapper) are not modelled. `Sidebar.SubmitAddBuilding` calls the service's `AddBuilding` directly, as the wrapper does.
- The JSX, styles and chart registration of all components are not modelled.
- `Sidebar.SubmitAddBuilding`: the form's loading flag, error text and reset after success are UI state and are not modelled. The error is returned as a value.

## Notes on the source

- `__proto__` as a key. Both the sensor layout (Sidebar.tsx:43) and the subsets of a multi import (dataImportService.ts:114) are filled by assignment into a `{}` literal, where the key `__proto__` sets the prototype and adds no own key. A floor named `__proto__` is dropped from the layout, so a layout naming only that floor fails with the missing-layout error (`SidebarExamples.ProtoFloorLeavesNoLayout`). A batch id `__proto__` is dropped from its building's subset, so a chunk holding only that id yields a building that fails verification (`DataImport.ProtoOnlyFeedDoesNotVerify`).
- Duplicate building ids. The application reducer performs no duplicate check, so two ADD_BUILDING actions with one id give two entries (`AppContext.AddBuildingAllowsDuplicateIds`). The model follows the code; no uniqueness invariant is assumed.
- `updateBuildingData` replaces the whole building node with `{batch_data, lastUpdated}`, dropping the name and the layout (`FirebaseService.UpdatedRecord`).
- Every `subscribeToBuilding` disposer deletes the registry key, even when a newer subscription has since stored its own disposer under that key. Disposing an older subscription therefore hides the newer one from `cleanup` (`FirebaseService.OlderDisposerOrphansNewer`).
- `importBatchData` creates the "batch_data" building with an empty inline feed, because its data lives at the root. `verifyImportedData` on that id is therefore false, unless the record already held inline data (`DataImport.RootImportDoesNotVerify`).
