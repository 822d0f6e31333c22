/**
 * The add-building form: the building name, a comma-separated floor list and a sensor layout
 * `floor:sensor,sensor;floor:sensor,...` are parsed and validated before the building is created.
 */
module Sidebar {
  import opened Wrappers
  import opened Dict
  import opened JsString
  import opened Types
  import opened Store
  import FirebaseService

  datatype ParseError = NameRequired | FloorRequired | SensorFloorRequired

  /** The message the form shows for each error. */
  function Message(e: ParseError): string {
    match e
    case NameRequired => "Building name is required"
    case FloorRequired => "At least one floor is required"
    case SensorFloorRequired => "At least one floor with sensors is required"
  }

  datatype Parsed = Parsed(floors: seq<string>, sensorsPerFloor: Dict<seq<string>>)

  /**
   * What one `;`-segment contributes: `const [floor, sensorsStr] = config.split(':')` keeps the
   * first two pieces; both must be non-empty before trimming, the floor is trimmed afterwards,
   * and the sensor list must keep at least one token.
   */
  function Contribution(segment: string): (c: Option<(string, seq<string>)>)
    ensures c.Some? ==> c.value.1 != []
  {
    var parts := Split(segment, ':');
    if |parts| >= 2 && parts[0] != "" && parts[1] != "" then
      var sensors := Tokens(parts[1], ',');
      if |sensors| > 0 then Some((Trim(parts[0]), sensors)) else None
    else None
  }

  /**
   * What a contribution looks like: the floor key holds no `:` and no white space at either end
   * (it may be empty), and each sensor is non-empty, comma-free and trimmed.
   */
  lemma ContributionSpec(segment: string)
    ensures Contribution(segment).Some? ==>
      var floor := Contribution(segment).value.0;
      ':' !in floor && (floor != "" ==> !IsWhiteSpace(floor[0]) && !IsWhiteSpace(floor[|floor| - 1]))
      && forall t :: t in Contribution(segment).value.1 ==>
           t != "" && ',' !in t && !IsWhiteSpace(t[0]) && !IsWhiteSpace(t[|t| - 1])
  {
    var pieces := Split(segment, ':');
    if Contribution(segment).Some? {
      assert ':' !in Trim(pieces[0]) by {
        TrimSpec(pieces[0]);
        var a, b :| 0 <= a <= b <= |pieces[0]| && Trim(pieces[0]) == pieces[0][a..b];
        SliceOmits(pieces[0], a, b, ':');
      }
      assert Trim(pieces[0]) != "" ==> !IsWhiteSpace(Trim(pieces[0])[0]) && !IsWhiteSpace(Trim(pieces[0])[|Trim(pieces[0])| - 1]) by {
        TrimSpec(pieces[0]);
      }
      forall t | t in Contribution(segment).value.1
        ensures t != "" && ',' !in t && !IsWhiteSpace(t[0]) && !IsWhiteSpace(t[|t| - 1])
      {
        TokensSpec(pieces[1], ',', t);
      }
    }
  }

  /** The segments' contributions, in order. */
  function Contributions(segments: seq<string>): (cs: seq<Option<(string, seq<string>)>>)
    ensures |cs| == |segments|
    ensures forall i :: 0 <= i < |segments| ==> cs[i] == Contribution(segments[i])
  {
    seq(|segments|, i requires 0 <= i < |segments| => Contribution(segments[i]))
  }

  /** `obj[key] = value` for each present entry in turn, starting from `{}` (so `__proto__` is never kept). */
  function AssignAll<V>(cs: seq<Option<(string, V)>>): Dict<V>
    decreases |cs|
  {
    if cs == [] then []
    else
      var acc := AssignAll(cs[..|cs| - 1]);
      match cs[|cs| - 1]
      case Some(c) => Assign(acc, c.0, c.1)
      case None => acc
  }

  lemma AssignAllStep<V>(cs: seq<Option<(string, V)>>, i: nat)
    requires i < |cs|
    ensures AssignAll(cs[..i + 1]) ==
      if cs[i].Some? then Assign(AssignAll(cs[..i]), cs[i].value.0, cs[i].value.1) else AssignAll(cs[..i])
  {
    assert cs[..i + 1][..i] == cs[..i];
  }

  /** The `sensorsPerFloor` object after the loop. */
  function SensorsPerFloor(segments: seq<string>): Dict<seq<string>> {
    AssignAll(Contributions(segments))
  }

  /** `handleAddBuilding`'s checks, in order, up to the store call. */
  function Parse(name: string, floors: string, sensorsConfig: string): Result<Parsed, ParseError> {
    if Trim(name) == "" then Err(NameRequired)
    else
      var floorsList := Tokens(floors, ',');
      if floorsList == [] then Err(FloorRequired)
      else
        var sensorsPerFloor := SensorsPerFloor(Split(sensorsConfig, ';'));
        if sensorsPerFloor == [] then Err(SensorFloorRequired)
        else Ok(Parsed(floorsList, sensorsPerFloor))
  }

  /** The parse as the handler performs it: the sensor layout is built by a loop of assignments. */
  method ParseAddBuilding(name: string, floors: string, sensorsConfig: string) returns (r: Result<Parsed, ParseError>)
    ensures r == Parse(name, floors, sensorsConfig)
  {
    if Trim(name) == "" {
      return Err(NameRequired);
    }
    var floorsList := Tokens(floors, ',');
    if |floorsList| == 0 {
      return Err(FloorRequired);
    }
    var sensorsPerFloor: Dict<seq<string>> := [];
    var sensorConfigs := Split(sensorsConfig, ';');
    ghost var cs := Contributions(sensorConfigs);
    var i := 0;
    while i < |sensorConfigs|
      invariant 0 <= i <= |sensorConfigs|
      invariant sensorsPerFloor == AssignAll(cs[..i])
    {
      ghost var before := sensorsPerFloor;
      assert cs[i] == Contribution(sensorConfigs[i]);
      var parts := Split(sensorConfigs[i], ':');
      if |parts| >= 2 && parts[0] != "" && parts[1] != "" {
        var floorName := Trim(parts[0]);
        var sensorsList := Tokens(parts[1], ',');
        if |sensorsList| > 0 {
          sensorsPerFloor := Assign(sensorsPerFloor, floorName, sensorsList);
          assert cs[i] == Some((floorName, sensorsList));
        } else {
          assert cs[i] == None;
        }
      } else {
        assert cs[i] == None;
      }
      assert sensorsPerFloor == AssignAll(cs[..i + 1]) by { AssignAllStep(cs, i); }
      i := i + 1;
    }
    assert cs[..i] == cs;
    if |sensorsPerFloor| == 0 {
      return Err(SensorFloorRequired);
    }
    r := Ok(Parsed(floorsList, sensorsPerFloor));
  }

  /** Entry i is the last present one for key k, and it carries v. */
  ghost predicate LastFor<V>(cs: seq<Option<(string, V)>>, k: string, v: V) {
    exists i :: 0 <= i < |cs| && cs[i] == Some((k, v))
      && forall j :: i < j < |cs| ==> !Assigns(cs[j], k)
  }

  predicate Assigns<V>(c: Option<(string, V)>, k: string) {
    c.Some? && c.value.0 == k
  }

  /** An entry that leaves an own key behind: present, and not named `__proto__`. */
  predicate Lands<V>(c: Option<(string, V)>) {
    c.Some? && c.value.0 != ProtoKey
  }

  /**
   * A repeated key is overwritten: each key holds the value of the last entry naming it, and
   * `__proto__` holds nothing however often it is named.
   */
  lemma {:induction false} LastAssignmentWins<V>(cs: seq<Option<(string, V)>>, k: string, v: V)
    ensures Get(AssignAll(cs), k) == Some(v) <==> k != ProtoKey && LastFor(cs, k, v)
    decreases |cs|
  {
    if cs != [] {
      var n := |cs|;
      var p := cs[..n - 1];
      LastAssignmentWins(p, k, v);
      if Assigns(cs[n - 1], k) {
        LastInOwnKey(cs, k, v);
      } else {
        assert Get(AssignAll(cs), k) == Get(AssignAll(p), k);
        LastOtherKey(cs, k, v);
      }
    }
  }

  lemma LastInOwnKey<V>(cs: seq<Option<(string, V)>>, k: string, v: V)
    requires cs != [] && Assigns(cs[|cs| - 1], k)
    ensures LastFor(cs, k, v) <==> cs[|cs| - 1].value.1 == v
  {
    var n := |cs|;
    if LastFor(cs, k, v) {
      var i :| 0 <= i < n && cs[i] == Some((k, v)) && forall j :: i < j < n ==> !Assigns(cs[j], k);
      assert i == n - 1;
    }
    if cs[n - 1].value.1 == v {
      assert cs[n - 1] == Some((k, v));
    }
  }

  lemma LastOtherKey<V>(cs: seq<Option<(string, V)>>, k: string, v: V)
    requires cs != [] && !Assigns(cs[|cs| - 1], k)
    ensures LastFor(cs, k, v) <==> LastFor(cs[..|cs| - 1], k, v)
  {
    var n := |cs|;
    var p := cs[..n - 1];
    if LastFor(cs, k, v) {
      var i :| 0 <= i < n && cs[i] == Some((k, v)) && forall j :: i < j < n ==> !Assigns(cs[j], k);
      assert i < n - 1 && p[i] == cs[i];
      assert forall j :: i < j < n - 1 ==> p[j] == cs[j];
    }
    if LastFor(p, k, v) {
      var i :| 0 <= i < n - 1 && p[i] == Some((k, v)) && forall j :: i < j < n - 1 ==> !Assigns(p[j], k);
      assert cs[i] == p[i];
      assert forall j :: i < j < n - 1 ==> cs[j] == p[j];
    }
  }

  /** The result is empty exactly when no entry lands: each is absent or names `__proto__`. */
  lemma {:induction false} AssignAllEmpty<V>(cs: seq<Option<(string, V)>>)
    ensures AssignAll(cs) == [] <==> forall i :: 0 <= i < |cs| ==> !Lands(cs[i])
    decreases |cs|
  {
    if cs != [] {
      var n := |cs|;
      var p := cs[..n - 1];
      AssignAllEmpty(p);
      assert forall i :: 0 <= i < n - 1 ==> p[i] == cs[i];
      match cs[n - 1] {
        case Some(c) =>
          if c.0 != ProtoKey {
            assert c.0 in Keys(AssignAll(cs));
          }
        case None =>
      }
    }
  }

  /** Each key appears once. */
  lemma {:induction false} AssignAllUnique<V>(cs: seq<Option<(string, V)>>)
    ensures Unique(AssignAll(cs))
    decreases |cs|
  {
    if cs != [] {
      var n := |cs|;
      AssignAllUnique(cs[..n - 1]);
      match cs[n - 1] {
        case Some(c) => AssignUnique(AssignAll(cs[..n - 1]), c.0, c.1);
        case None =>
      }
    }
  }

  /** A repeated floor name is overwritten by the later segment. */
  lemma LastSegmentWins(segments: seq<string>, k: string, v: seq<string>)
    ensures Get(SensorsPerFloor(segments), k) == Some(v) <==> k != ProtoKey && LastFor(Contributions(segments), k, v)
  {
    LastAssignmentWins(Contributions(segments), k, v);
  }

  /** No segment leaves a floor behind: each is skipped, or names the floor `__proto__`. */
  predicate NoSegmentContributes(segments: seq<string>) {
    forall i :: 0 <= i < |segments| ==> !Lands(Contribution(segments[i]))
  }

  /** The layout is empty exactly when no segment leaves a floor behind. */
  lemma SensorsPerFloorEmpty(segments: seq<string>)
    ensures SensorsPerFloor(segments) == [] <==> NoSegmentContributes(segments)
  {
    AssignAllEmpty(Contributions(segments));
  }

  /** The parsed layout names each floor once, and no floor keeps an empty sensor list. */
  lemma SensorsPerFloorWellFormed(segments: seq<string>)
    ensures Unique(SensorsPerFloor(segments))
    ensures forall k :: k in Keys(SensorsPerFloor(segments)) ==> Get(SensorsPerFloor(segments), k).value != []
  {
    AssignAllUnique(Contributions(segments));
    forall k | k in Keys(SensorsPerFloor(segments))
      ensures Get(SensorsPerFloor(segments), k).value != []
    {
      AssignedListNonEmpty(segments, k);
    }
  }

  lemma AssignedListNonEmpty(segments: seq<string>, k: string)
    requires k in Keys(SensorsPerFloor(segments))
    ensures Get(SensorsPerFloor(segments), k).Some? && Get(SensorsPerFloor(segments), k).value != []
  {
    var cs := Contributions(segments);
    var v := Get(SensorsPerFloor(segments), k).value;
    assert LastFor(cs, k, v) by { LastAssignmentWins(cs, k, v); }
    var i :| 0 <= i < |cs| && cs[i] == Some((k, v)) && forall j :: i < j < |cs| ==> !Assigns(cs[j], k);
    assert Contribution(segments[i]) == Some((k, v));
  }

  /** Each error arises exactly under its own condition, the checks taken in order. */
  lemma ParseErrors(name: string, floors: string, sensorsConfig: string)
    ensures Parse(name, floors, sensorsConfig) == Err(NameRequired) <==> AllWhiteSpace(name)
    ensures Parse(name, floors, sensorsConfig) == Err(FloorRequired) <==>
      !AllWhiteSpace(name) && forall i :: 0 <= i < |Split(floors, ',')| ==> AllWhiteSpace(Split(floors, ',')[i])
    ensures Parse(name, floors, sensorsConfig) == Err(SensorFloorRequired) <==>
      !AllWhiteSpace(name) && Tokens(floors, ',') != [] && NoSegmentContributes(Split(sensorsConfig, ';'))
  {
    TrimEmpty(name);
    TokensEmpty(floors, ',');
    SensorsPerFloorEmpty(Split(sensorsConfig, ';'));
  }

  /** A successful parse carries a non-empty list of clean floor names and a well-formed, non-empty layout. */
  lemma ParseSuccess(name: string, floors: string, sensorsConfig: string)
    requires Parse(name, floors, sensorsConfig).Ok?
    ensures var p := Parse(name, floors, sensorsConfig).value;
      p.floors != [] && p.sensorsPerFloor != [] && Unique(p.sensorsPerFloor)
      && (forall f :: f in p.floors ==> f != "" && ',' !in f && !IsWhiteSpace(f[0]) && !IsWhiteSpace(f[|f| - 1]))
      && (forall k :: k in Keys(p.sensorsPerFloor) ==> Get(p.sensorsPerFloor, k).value != [])
  {
    SensorsPerFloorWellFormed(Split(sensorsConfig, ';'));
    forall f | f in Tokens(floors, ',')
      ensures f != "" && ',' !in f && !IsWhiteSpace(f[0]) && !IsWhiteSpace(f[|f| - 1])
    {
      TokensSpec(floors, ',', f);
    }
  }

  /**
   * Submitting the form: on an error nothing is written; otherwise the building is added with
   * the name as typed (untrimmed) and the parsed floors and layout.
   */
  method SubmitAddBuilding(svc: FirebaseService.Service, db: Database, name: string, floors: string,
                           sensorsConfig: string, now: int, pushKey: string)
    returns (r: Result<string, ParseError>)
    modifies db
    ensures Parse(name, floors, sensorsConfig).Err? ==>
      r == Err(Parse(name, floors, sensorsConfig).error) && db.buildings == old(db.buildings)
    ensures Parse(name, floors, sensorsConfig).Ok? ==>
      var p := Parse(name, floors, sensorsConfig).value;
      r == Ok(pushKey)
      && db.buildings == Set(old(db.buildings), pushKey,
                             FirebaseService.NewBuildingRecord(name, p.floors, p.sensorsPerFloor, now))
    ensures db.root == old(db.root)
  {
    var parsed := ParseAddBuilding(name, floors, sensorsConfig);
    match parsed {
      case Err(e) =>
        r := Err(e);
      case Ok(p) =>
        var id := svc.AddBuilding(db, name, p.floors, p.sensorsPerFloor, now, pushKey);
        r := Ok(id);
    }
  }
}
