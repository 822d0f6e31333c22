/**
 * Worked examples of the add-building form parser: the form's defaults, and the edge cases of
 * the sensor layout syntax. Each string fact is proved on its own and the examples combine them.
 */
module SidebarExamples {
  import opened Wrappers
  import opened Dict
  import opened JsString
  import opened Types
  import opened Sidebar

  /** A clean piece with no comma is a single token. */
  lemma SingleToken(t: string)
    requires t != "" && ',' !in t && !IsWhiteSpace(t[0]) && !IsWhiteSpace(t[|t| - 1])
    ensures Tokens(t, ',') == [t]
  {
    TokensOfJoin([t], ',');
  }

  /** Two clean pieces around a comma are two tokens. */
  lemma TokensInTwo(s: string, a: string, b: string)
    requires s == a + "," + b
    requires a != "" && ',' !in a && !IsWhiteSpace(a[0]) && !IsWhiteSpace(a[|a| - 1])
    requires b != "" && ',' !in b && !IsWhiteSpace(b[0]) && !IsWhiteSpace(b[|b| - 1])
    ensures Tokens(s, ',') == [a, b]
  {
    assert s == Join([a, b], ',');
    TokensOfJoin([a, b], ',');
  }

  lemma SplitsInTwo(s: string, a: string, b: string, sep: char)
    requires s == a + [sep] + b && sep !in a && sep !in b
    ensures Split(s, sep) == [a, b]
  {
    SplitPair(a, b, sep);
  }

  // The string facts the examples use, one per lemma.

  lemma SplitE1() ensures Split("E1:M1,M2", ':') == ["E1", "M1,M2"] { SplitsInTwo("E1:M1,M2", "E1", "M1,M2", ':'); }
  lemma TokensM() ensures Tokens("M1,M2", ',') == ["M1", "M2"] { TokensInTwo("M1,M2", "M1", "M2"); }
  lemma TrimE1() ensures Trim("E1") == "E1" { TrimClean("E1"); }
  lemma SplitE2() ensures Split("E2:S1,S2", ':') == ["E2", "S1,S2"] { SplitsInTwo("E2:S1,S2", "E2", "S1,S2", ':'); }
  lemma TokensS() ensures Tokens("S1,S2", ',') == ["S1", "S2"] { TokensInTwo("S1,S2", "S1", "S2"); }
  lemma TrimE2() ensures Trim("E2") == "E2" { TrimClean("E2"); }
  lemma SplitLayout() ensures Split("E1:M1,M2;E2:S1,S2", ';') == ["E1:M1,M2", "E2:S1,S2"] {
    SplitsInTwo("E1:M1,M2;E2:S1,S2", "E1:M1,M2", "E2:S1,S2", ';');
  }
  lemma TokensFloors() ensures Tokens("E1,E2", ',') == ["E1", "E2"] { TokensInTwo("E1,E2", "E1", "E2"); }
  lemma SplitBlank() ensures Split(" :M1", ':') == [" ", "M1"] { SplitsInTwo(" :M1", " ", "M1", ':'); }
  lemma TokensM1() ensures Tokens("M1", ',') == ["M1"] { SingleToken("M1"); }
  lemma TrimBlank() ensures Trim(" ") == "" { TrimEmpty(" "); }
  lemma SplitTwoColons() ensures Split("E1:M1:X", ':') == ["E1", "M1", "X"] {
    assert "E1:M1:X" == Join(["E1", "M1", "X"], ':');
    SplitJoin(["E1", "M1", "X"], ':');
  }
  lemma SplitE9() ensures Split("E9:M1", ':') == ["E9", "M1"] { SplitsInTwo("E9:M1", "E9", "M1", ':'); }
  lemma TrimE9() ensures Trim("E9") == "E9" { TrimClean("E9"); }
  lemma SplitE9Layout() ensures Split("E9:M1", ';') == ["E9:M1"] { SplitNoSep("E9:M1", ';'); }
  lemma TokensE1() ensures Tokens("E1", ',') == ["E1"] { SingleToken("E1"); }
  lemma TrimB() ensures Trim("B") == "B" { TrimClean("B"); }
  lemma SplitBlankSensors() ensures Split("E1: , ", ':') == ["E1", " , "] { SplitsInTwo("E1: , ", "E1", " , ", ':'); }
  lemma SplitCommaBlank() ensures Split(" , ", ',') == [" ", " "] { SplitsInTwo(" , ", " ", " ", ','); }
  lemma TokensBlank() ensures Tokens(" , ", ',') == [] {
    SplitCommaBlank();
    TrimBlank();
    var trimmed := TrimAll([" ", " "]);
    assert trimmed == ["", ""];
  }
  lemma SplitProto() ensures Split("__proto__:M1", ':') == ["__proto__", "M1"] {
    SplitsInTwo("__proto__:M1", "__proto__", "M1", ':');
  }
  lemma TrimProto() ensures Trim("__proto__") == "__proto__" { TrimClean("__proto__"); }
  lemma SplitProtoLayout() ensures Split("__proto__:M1", ';') == ["__proto__:M1"] { SplitNoSep("__proto__:M1", ';'); }

  lemma AssignOne<V>(a: (string, V))
    ensures AssignAll([Some(a)]) == Assign([], a.0, a.1)
  {
    assert [Some(a)][..0] == [];
  }

  lemma AssignTwo<V>(a: (string, V), b: (string, V))
    ensures AssignAll([Some(a), Some(b)]) == Assign(Assign([], a.0, a.1), b.0, b.1)
  {
    AssignOne(a);
    assert [Some(a), Some(b)][..1] == [Some(a)];
  }

  // The examples.

  lemma FirstDefaultSegment()
    ensures Contribution("E1:M1,M2") == Some(("E1", ["M1", "M2"]))
  {
    SplitE1();
    TokensM();
    TrimE1();
  }

  lemma SecondDefaultSegment()
    ensures Contribution("E2:S1,S2") == Some(("E2", ["S1", "S2"]))
  {
    SplitE2();
    TokensS();
    TrimE2();
  }

  /** The form's default layout parses to the default sensors per floor. */
  lemma DefaultLayoutParses()
    ensures SensorsPerFloor(Split("E1:M1,M2;E2:S1,S2", ';')) == DefaultSensorsPerFloor
  {
    SplitLayout();
    DefaultSegmentsAssign();
  }

  lemma DefaultSegmentsAssign()
    ensures SensorsPerFloor(["E1:M1,M2", "E2:S1,S2"]) == DefaultSensorsPerFloor
  {
    DefaultContributions();
    AssignTwo(("E1", ["M1", "M2"]), ("E2", ["S1", "S2"]));
    DefaultAssignments();
  }

  lemma DefaultAssignments()
    ensures Assign(Assign([], "E1", ["M1", "M2"]), "E2", ["S1", "S2"]) == DefaultSensorsPerFloor
  {
    assert Assign([], "E1", ["M1", "M2"]) == [("E1", ["M1", "M2"])];
  }

  lemma DefaultContributions()
    ensures Contributions(["E1:M1,M2", "E2:S1,S2"]) == [Some(("E1", ["M1", "M2"])), Some(("E2", ["S1", "S2"]))]
  {
    ContributionsPair("E1:M1,M2", "E2:S1,S2");
    FirstDefaultSegment();
    SecondDefaultSegment();
  }

  lemma ContributionsPair(a: string, b: string)
    ensures Contributions([a, b]) == [Contribution(a), Contribution(b)]
  {
  }

  /** The form's default values parse to the default floors and sensor layout. */
  lemma DefaultsParse(name: string)
    requires !AllWhiteSpace(name)
    ensures Parse(name, "E1,E2", "E1:M1,M2;E2:S1,S2") == Ok(Parsed(DefaultFloors, DefaultSensorsPerFloor))
  {
    TrimEmpty(name);
    TokensFloors();
    DefaultLayoutParses();
  }

  /** The emptiness check precedes the trim, so a blank floor name becomes the key "". */
  lemma BlankFloorBecomesEmptyKey()
    ensures Contribution(" :M1") == Some(("", ["M1"]))
  {
    SplitBlank();
    TokensM1();
    TrimBlank();
  }

  /** A floor whose sensor piece is empty is skipped. */
  lemma EmptySensorListSkipped()
    ensures Contribution("E1:") == None
  {
    SplitsInTwo("E1:", "E1", "", ':');
  }

  /** A floor whose sensor piece is not empty but holds only blanks and commas is skipped too. */
  lemma BlankSensorListSkipped()
    ensures Contribution("E1: , ") == None
  {
    SplitBlankSensors();
    TokensBlank();
  }

  /** Text after a second colon is ignored. */
  lemma SecondColonIgnored()
    ensures Contribution("E1:M1:X") == Some(("E1", ["M1"]))
  {
    SplitTwoColons();
    TokensM1();
    TrimE1();
  }

  lemma UnlistedFloorSegment()
    ensures Contribution("E9:M1") == Some(("E9", ["M1"]))
  {
    SplitE9();
    TokensM1();
    TrimE9();
  }

  /** Sensor floors are not checked against the floor list. */
  lemma SensorFloorsUnchecked()
    ensures Parse("B", "E1", "E9:M1") == Ok(Parsed(["E1"], [("E9", ["M1"])]))
  {
    TrimB();
    TokensE1();
    SplitE9Layout();
    UnlistedFloorSegment();
    assert Contributions(["E9:M1"]) == [Some(("E9", ["M1"]))];
    AssignOne(("E9", ["M1"]));
  }

  lemma ProtoSegment()
    ensures Contribution("__proto__:M1") == Some((ProtoKey, ["M1"]))
  {
    SplitProto();
    TokensM1();
    TrimProto();
  }

  /**
   * A floor named `__proto__` contributes, but assigning it on the `{}` layout creates no own
   * key, so `Object.keys` finds nothing and the form reports that a floor with sensors is needed.
   */
  lemma ProtoFloorLeavesNoLayout()
    ensures Parse("B", "E1", "__proto__:M1") == Err(SensorFloorRequired)
  {
    TrimB();
    TokensE1();
    SplitProtoLayout();
    ProtoSegment();
    assert Contributions(["__proto__:M1"]) == [Some((ProtoKey, ["M1"]))];
    AssignOne((ProtoKey, ["M1"]));
  }
}
