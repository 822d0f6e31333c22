/**
 * The application state machine: `AppState`, the closed `AppAction` vocabulary, the initial
 * state and the pure reducer that the UI dispatches to.
 */
module AppContext {
  import opened Wrappers
  import opened Types

  datatype AppState = AppState(
    buildings: seq<Building>,
    loading: bool,
    connected: bool,
    selectedBuilding: Option<string>,
    debugLogs: seq<DebugLog>,
    showDebug: bool)

  datatype Action =
    | SetLoading(loading: bool)
    | SetConnected(connected: bool)
    | SetBuildings(buildings: seq<Building>)
    | AddBuilding(building: Building)
    | UpdateBuilding(building: Building)
    | RemoveBuilding(id: string)
    | SetSelectedBuilding(selection: Option<string>)
    | AddDebugLog(log: DebugLog)
    | ClearDebugLogs
    | ToggleDebug(show: Option<bool>)
      /** An action object whose type tag is none of the above (possible at run time). */
    | Unrecognised

  /** The maximum number of debug-log entries the state keeps. */
  const MaxLogs := 100

  const InitialState := AppState([], true, false, None, [], false)

  function Reduce(state: AppState, action: Action): AppState {
    match action
    case SetLoading(b) => state.(loading := b)
    case SetConnected(b) => state.(connected := b)
    case SetBuildings(bs) => state.(buildings := bs, loading := false)
    case AddBuilding(b) => state.(buildings := state.buildings + [b])
    case UpdateBuilding(b) => state.(buildings := Replace(state.buildings, b))
    case RemoveBuilding(id) =>
      state.(buildings := Without(state.buildings, id),
             selectedBuilding := if state.selectedBuilding == Some(id) then None else state.selectedBuilding)
    case SetSelectedBuilding(sel) => state.(selectedBuilding := sel)
    case AddDebugLog(log) => state.(debugLogs := LastN(state.debugLogs, MaxLogs - 1) + [log])
    case ClearDebugLogs => state.(debugLogs := [])
    case ToggleDebug(show) =>
      state.(showDebug := match show case Some(v) => v case None => !state.showDebug)
    case Unrecognised => state
  }

  /** `buildings.map(b => b.id === nb.id ? nb : b)`. */
  function Replace(bs: seq<Building>, nb: Building): seq<Building> {
    if bs == [] then []
    else [if bs[0].id == nb.id then nb else bs[0]] + Replace(bs[1..], nb)
  }

  /** `buildings.filter(b => b.id !== id)`. */
  function Without(bs: seq<Building>, id: string): seq<Building> {
    if bs == [] then []
    else (if bs[0].id == id then [] else [bs[0]]) + Without(bs[1..], id)
  }

  /** Dispatching a sequence of actions in order. */
  function ReduceAll(state: AppState, actions: seq<Action>): AppState
    decreases |actions|
  {
    if actions == [] then state
    else Reduce(ReduceAll(state, actions[..|actions| - 1]), actions[|actions| - 1])
  }

  /** The app starts loading, disconnected, with nothing selected, no logs and the panel hidden. */
  lemma InitialStateSpec(bs: seq<Building>)
    ensures InitialState.buildings == [] && InitialState.loading && !InitialState.connected
    ensures InitialState.selectedBuilding == None && InitialState.debugLogs == [] && !InitialState.showDebug
    ensures ReduceAll(InitialState, [SetBuildings(bs)]) == InitialState.(buildings := bs, loading := false)
  {
    assert [SetBuildings(bs)][..0] == [];
  }

  // ------------------------------------------------------------------
  // Which fields each action may change

  datatype Field = Buildings | Loading | Connected | Selection | DebugLogs | ShowDebug

  /** The fields each case of the reducer names in its object literal. */
  function Touches(action: Action): set<Field> {
    match action
    case SetLoading(_) => {Loading}
    case SetConnected(_) => {Connected}
    case SetBuildings(_) => {Buildings, Loading}
    case AddBuilding(_) => {Buildings}
    case UpdateBuilding(_) => {Buildings}
    case RemoveBuilding(_) => {Buildings, Selection}
    case SetSelectedBuilding(_) => {Selection}
    case AddDebugLog(_) => {DebugLogs}
    case ClearDebugLogs => {DebugLogs}
    case ToggleDebug(_) => {ShowDebug}
    case Unrecognised => {}
  }

  predicate SameField(f: Field, s: AppState, t: AppState) {
    match f
    case Buildings => s.buildings == t.buildings
    case Loading => s.loading == t.loading
    case Connected => s.connected == t.connected
    case Selection => s.selectedBuilding == t.selectedBuilding
    case DebugLogs => s.debugLogs == t.debugLogs
    case ShowDebug => s.showDebug == t.showDebug
  }

  /** Every action leaves the fields it does not name as they were (`...state`). */
  lemma FrameLemma(state: AppState, action: Action, f: Field)
    requires f !in Touches(action)
    ensures SameField(f, state, Reduce(state, action))
  {
  }

  /** An unrecognised action returns the state itself. */
  lemma UnrecognisedIsIdentity(state: AppState)
    ensures Reduce(state, Unrecognised) == state
  {
  }

  // ------------------------------------------------------------------
  // Buildings

  lemma SetBuildingsSpec(state: AppState, bs: seq<Building>)
    ensures Reduce(state, SetBuildings(bs)).buildings == bs
    ensures !Reduce(state, SetBuildings(bs)).loading
  {
  }

  /** ADD_BUILDING appends at the end; nothing checks for an existing id. */
  lemma AddBuildingSpec(state: AppState, b: Building)
    ensures var bs := Reduce(state, AddBuilding(b)).buildings;
      |bs| == |state.buildings| + 1 && bs[|bs| - 1] == b && bs[..|bs| - 1] == state.buildings
  {
    var bs := Reduce(state, AddBuilding(b)).buildings;
    assert bs[..|bs| - 1] == state.buildings;
  }

  /** Two ADD_BUILDING actions with the same building leave two entries with one id. */
  lemma AddBuildingAllowsDuplicateIds(b: Building)
    ensures var s := ReduceAll(InitialState, [AddBuilding(b), AddBuilding(b)]);
      |s.buildings| == 2 && s.buildings[0].id == s.buildings[1].id
  {
    var acts := [AddBuilding(b), AddBuilding(b)];
    assert acts[..1] == [AddBuilding(b)];
    assert acts[..1][..0] == [];
    assert [AddBuilding(b)][..0] == [];
    var s1 := ReduceAll(InitialState, acts[..1]);
    assert ReduceAll(InitialState, [AddBuilding(b)]) == Reduce(ReduceAll(InitialState, []), AddBuilding(b));
    assert s1 == Reduce(InitialState, AddBuilding(b));
    assert s1.buildings == [b];
  }

  /** UPDATE_BUILDING keeps length and order and replaces exactly the entries with the payload's id. */
  lemma {:induction false} UpdateBuildingSpec(bs: seq<Building>, nb: Building)
    ensures |Replace(bs, nb)| == |bs|
    ensures forall i :: 0 <= i < |bs| ==>
      Replace(bs, nb)[i] == if bs[i].id == nb.id then nb else bs[i]
  {
    if bs != [] {
      UpdateBuildingSpec(bs[1..], nb);
    }
  }

  /** Updating twice with the same payload is the same as updating once. */
  lemma UpdateBuildingIdempotent(state: AppState, b: Building)
    ensures Reduce(Reduce(state, UpdateBuilding(b)), UpdateBuilding(b)) == Reduce(state, UpdateBuilding(b))
  {
    var once := Replace(state.buildings, b);
    UpdateBuildingSpec(state.buildings, b);
    UpdateBuildingSpec(once, b);
  }

  /** `a` is `b` with some elements left out, the rest in their original order. */
  ghost predicate Subsequence<T>(a: seq<T>, b: seq<T>)
    decreases |b|
  {
    if a == [] then true
    else if b == [] then false
    else (a[0] == b[0] && Subsequence(a[1..], b[1..])) || Subsequence(a, b[1..])
  }

  /**
   * REMOVE_BUILDING: afterwards no entry has the id, the entries kept are exactly those with
   * another id, each as often as before, and they keep their relative order.
   */
  lemma {:induction false} RemoveBuildingSpec(bs: seq<Building>, id: string)
    ensures forall b :: b in Without(bs, id) <==> b in bs && b.id != id
    ensures forall b :: multiset(Without(bs, id))[b] == if b.id == id then 0 else multiset(bs)[b]
    ensures Subsequence(Without(bs, id), bs)
  {
    if bs != [] {
      RemoveBuildingSpec(bs[1..], id);
      var rest := Without(bs[1..], id);
      assert bs == [bs[0]] + bs[1..];
      assert multiset(bs) == multiset([bs[0]]) + multiset(bs[1..]);
      if bs[0].id != id {
        assert ([bs[0]] + rest)[1..] == rest;
        assert multiset(Without(bs, id)) == multiset([bs[0]]) + multiset(rest);
      } else {
        assert Without(bs, id) == rest;
        SubsequenceSkip(rest, bs);
      }
    }
  }

  lemma SubsequenceSkip<T>(a: seq<T>, b: seq<T>)
    requires b != [] && Subsequence(a, b[1..])
    ensures Subsequence(a, b)
  {
  }

  /** The selection is cleared exactly when it was the removed id. */
  lemma RemoveBuildingSelection(state: AppState, id: string)
    ensures var s := Reduce(state, RemoveBuilding(id));
      (s.selectedBuilding == None <==> state.selectedBuilding == Some(id) || state.selectedBuilding == None)
      && (state.selectedBuilding != Some(id) ==> s.selectedBuilding == state.selectedBuilding)
  {
  }

  // ------------------------------------------------------------------
  // Debug log window

  /** ADD_DEBUG_LOG keeps the newest min(|old|, 99) entries and appends the new one. */
  lemma AddDebugLogSpec(state: AppState, log: DebugLog)
    ensures var logs := Reduce(state, AddDebugLog(log)).debugLogs;
      var kept := if |state.debugLogs| < MaxLogs - 1 then |state.debugLogs| else MaxLogs - 1;
      |logs| == kept + 1 && |logs| <= MaxLogs
      && logs[|logs| - 1] == log
      && logs[..|logs| - 1] == state.debugLogs[|state.debugLogs| - kept..]
  {
    var logs := Reduce(state, AddDebugLog(log)).debugLogs;
    assert logs[..|logs| - 1] == LastN(state.debugLogs, MaxLogs - 1);
  }

  /** No sequence of actions takes the log past 100 entries. */
  lemma {:induction false} LogWindowBounded(state: AppState, actions: seq<Action>)
    requires |state.debugLogs| <= MaxLogs
    ensures |ReduceAll(state, actions).debugLogs| <= MaxLogs
    decreases |actions|
  {
    if actions != [] {
      LogWindowBounded(state, actions[..|actions| - 1]);
    }
  }

  function LogActions(logs: seq<DebugLog>): (acts: seq<Action>)
    ensures |acts| == |logs|
    ensures forall i :: 0 <= i < |logs| ==> acts[i] == AddDebugLog(logs[i])
  {
    if logs == [] then [] else LogActions(logs[..|logs| - 1]) + [AddDebugLog(logs[|logs| - 1])]
  }

  /** The window is first-in first-out: after appending entries, it holds the newest 100 of all. */
  lemma {:induction false} LogWindowIsFifo(state: AppState, logs: seq<DebugLog>)
    requires |state.debugLogs| <= MaxLogs
    ensures ReduceAll(state, LogActions(logs)).debugLogs == LastN(state.debugLogs + logs, MaxLogs)
    decreases |logs|
  {
    if logs == [] {
      assert state.debugLogs + logs == state.debugLogs;
    } else {
      var init, last := logs[..|logs| - 1], logs[|logs| - 1];
      assert logs == init + [last];
      LogWindowIsFifo(state, init);
      LogWindowStep(state, init, last);
    }
  }

  /** One more entry moves the window of the newest 100 by one. */
  lemma LogWindowStep(state: AppState, init: seq<DebugLog>, last: DebugLog)
    requires ReduceAll(state, LogActions(init)).debugLogs == LastN(state.debugLogs + init, MaxLogs)
    ensures ReduceAll(state, LogActions(init + [last])).debugLogs == LastN(state.debugLogs + (init + [last]), MaxLogs)
  {
    assert state.debugLogs + (init + [last]) == state.debugLogs + init + [last];
    var acts := LogActions(init + [last]);
    assert (init + [last])[..|init|] == init;
    assert acts[..|acts| - 1] == LogActions(init);
    WindowStep(state.debugLogs + init, last);
  }

  lemma WindowStep(before: seq<DebugLog>, log: DebugLog)
    ensures LastN(LastN(before, MaxLogs), MaxLogs - 1) + [log] == LastN(before + [log], MaxLogs)
  {
    var n := |before|;
    if n >= MaxLogs {
      var t := before[n - (MaxLogs - 1)..];
      assert LastN(LastN(before, MaxLogs), MaxLogs - 1) == t by {
        var u := before[n - MaxLogs..];
        assert LastN(before, MaxLogs) == u;
        assert u[1..] == t;
      }
      assert (before + [log])[n + 1 - MaxLogs..] == t + [log];
    }
  }

  lemma ClearDebugLogsSpec(state: AppState)
    ensures Reduce(state, ClearDebugLogs).debugLogs == []
  {
  }

  // ------------------------------------------------------------------
  // Debug panel and connection flag

  /** With a value TOGGLE_DEBUG sets the flag; without one it negates it, so two restore it. */
  lemma ToggleDebugSpec(state: AppState, v: bool)
    ensures Reduce(state, ToggleDebug(Some(v))).showDebug == v
    ensures Reduce(state, ToggleDebug(None)).showDebug == !state.showDebug
    ensures Reduce(Reduce(state, ToggleDebug(None)), ToggleDebug(None)) == state
  {
  }

  /** The payload of the last SET_CONNECTED in the sequence, if any. */
  function LastConnected(actions: seq<Action>): Option<bool>
    decreases |actions|
  {
    if actions == [] then None
    else if actions[|actions| - 1].SetConnected? then Some(actions[|actions| - 1].connected)
    else LastConnected(actions[..|actions| - 1])
  }

  /** `connected` reflects the latest probe result dispatched, and nothing else touches it. */
  lemma {:induction false} ConnectedIsLatest(state: AppState, actions: seq<Action>)
    ensures ReduceAll(state, actions).connected ==
      match LastConnected(actions) case Some(c) => c case None => state.connected
    decreases |actions|
  {
    if actions != [] {
      ConnectedIsLatest(state, actions[..|actions| - 1]);
    }
  }
}
