/**
 * The mapper on the test suite's mapping: renamed keys, an excluded key, a
 * key matched by its own name, and a list of records.
 */
module MappingExamples {
  import opened Common
  import opened Data
  import opened Mapping

  /** The test suite's mapping: three renames and one exclusion, registered in its constructor. */
  method NewFakeMapping() returns (m: ObjectMapping, failure: Option<MappingError>)
    ensures fresh(m)
    ensures failure == None
    ensures m.mappings == map["id" := "ID", "some_column" := "SomeProperty", "This_is_a_Test" := "ThisIsATest"]
    ensures m.exclusions == ["ExcludedIsAdmin"]
  {
    m := new ObjectMapping();
    failure := m.Map("id", "ID");
    if failure.None? {
      failure := m.Map("some_column", "SomeProperty");
    }
    if failure.None? {
      failure := m.Map("This_is_a_Test", "ThisIsATest");
    }
    m.Exclude("ExcludedIsAdmin");
  }

  predicate IsFakeMapping(m: ObjectMapping)
    reads m
  {
    m.mappings == map["id" := "ID", "some_column" := "SomeProperty", "This_is_a_Test" := "ThisIsATest"]
    && m.exclusions == ["ExcludedIsAdmin"]
  }

  /**
   * The mapping itself compares names exactly: `ID` has no rename although
   * `id` has one, and only the exact excluded name is excluded.
   */
  lemma MappingNamesAreCaseSensitive(m: ObjectMapping)
    requires IsFakeMapping(m)
    ensures m.Get("id") == Some("ID") && m.Get("ID") == None
    ensures m.IsExcluded("ExcludedIsAdmin") && !m.IsExcluded("excludedisadmin")
  {
    assert "ID" != "id" by { assert "ID"[0] != "id"[0]; }
    assert "ID" !in m.mappings.Keys by { assert |"ID"| == 2 && |"some_column"| == 11 && |"This_is_a_Test"| == 14; }
    assert "excludedisadmin" != "ExcludedIsAdmin" by { assert "excludedisadmin"[0] != "ExcludedIsAdmin"[0]; }
  }

  /** The destination's public properties and their values on construction. */
  const FakeProperties: seq<string> := ["ID", "SomeProperty", "ThisIsATest", "ExcludedIsAdmin", "Implicit"]
  const FakeDefaults: map<string, Value> :=
    map["ID" := Int(0), "SomeProperty" := Null, "ThisIsATest" := Bool(false), "ExcludedIsAdmin" := Bool(false), "Implicit" := Null]

  function AcceptAll(prop: string, v: Value): bool { true }

  /** A property that is the only one of its length is the only one matching its own name. */
  lemma {:induction false} OnlySelfMatches(props: seq<string>, target: string)
    requires forall i :: 0 <= i < |props| ==> props[i] == target || |props[i]| != |target|
    requires exists i :: 0 <= i < |props| && props[i] == target
    requires forall i, j :: 0 <= i < j < |props| ==> props[i] != props[j]
    ensures Matching(props, target) == [target]
  {
    if props[0] == target {
      assert EqualsIgnoreCase(props[0], target);
      assert Matching(props[1..], target) == [] by { NoneMatch(props[1..], target); }
    } else {
      assert !EqualsIgnoreCase(props[0], target);
      var i :| 0 <= i < |props| && props[i] == target;
      assert props[1..][i - 1] == target;
      OnlySelfMatches(props[1..], target);
    }
  }

  /** No property of another length matches. */
  lemma {:induction false} NoneMatch(props: seq<string>, target: string)
    requires forall i :: 0 <= i < |props| ==> |props[i]| != |target|
    ensures Matching(props, target) == []
  {
    if props != [] {
      NoneMatch(props[1..], target);
    }
  }

  /** The properties' names have pairwise different lengths. */
  lemma FakeLengths()
    ensures |"ID"| == 2 && |"SomeProperty"| == 12 && |"ThisIsATest"| == 11 && |"ExcludedIsAdmin"| == 15 && |"Implicit"| == 8
    ensures forall i, j :: 0 <= i < j < |FakeProperties| ==> |FakeProperties[i]| != |FakeProperties[j]|
  {
  }

  /** The resolution of a renamed key whose target is a property. */
  lemma ResolvesByRename(m: ObjectMapping, key: string, k: nat)
    requires IsFakeMapping(m) && key in m.mappings && k < |FakeProperties| && m.mappings[key] == FakeProperties[k]
    requires key != "ExcludedIsAdmin"
    ensures FindProperty(FakeProperties, m, key) == Ok(Some(FakeProperties[k]))
  {
    FakeLengths();
    OnlySelfMatches(FakeProperties, FakeProperties[k]);
  }

  /** `id` is renamed to `ID`. */
  lemma ResolvesId(m: ObjectMapping)
    requires IsFakeMapping(m)
    ensures FindProperty(FakeProperties, m, "id") == Ok(Some("ID"))
  {
    ResolvesByRename(m, "id", 0);
  }

  /** `some_column` is renamed to `SomeProperty`. */
  lemma ResolvesSomeColumn(m: ObjectMapping)
    requires IsFakeMapping(m)
    ensures FindProperty(FakeProperties, m, "some_column") == Ok(Some("SomeProperty"))
  {
    ResolvesByRename(m, "some_column", 1);
  }

  /** `This_is_a_Test` is renamed to `ThisIsATest`. */
  lemma ResolvesThisIsATest(m: ObjectMapping)
    requires IsFakeMapping(m)
    ensures FindProperty(FakeProperties, m, "This_is_a_Test") == Ok(Some("ThisIsATest"))
  {
    ResolvesByRename(m, "This_is_a_Test", 2);
  }

  /** `Implicit` has no rename and matches its own property. */
  lemma ResolvesImplicit(m: ObjectMapping)
    requires IsFakeMapping(m)
    ensures FindProperty(FakeProperties, m, "Implicit") == Ok(Some("Implicit"))
  {
    FakeLengths();
    assert FakeProperties[4] == "Implicit";
    OnlySelfMatches(FakeProperties, FakeProperties[4]);
    assert "Implicit" !in m.mappings.Keys by { assert |"some_column"| == 11 && |"This_is_a_Test"| == 14; }
    assert m.Get("Implicit") == None && !m.IsExcluded("Implicit");
  }

  /** How each of the test record's keys resolves. */
  lemma FakeResolutions(m: ObjectMapping)
    requires IsFakeMapping(m)
    ensures FindProperty(FakeProperties, m, "id") == Ok(Some("ID"))
    ensures FindProperty(FakeProperties, m, "some_column") == Ok(Some("SomeProperty"))
    ensures FindProperty(FakeProperties, m, "This_is_a_Test") == Ok(Some("ThisIsATest"))
    ensures FindProperty(FakeProperties, m, "ExcludedIsAdmin") == Ok(None)
    ensures FindProperty(FakeProperties, m, "Implicit") == Ok(Some("Implicit"))
  {
    ResolvesId(m);
    ResolvesSomeColumn(m);
    ResolvesThisIsATest(m);
    ResolvesImplicit(m);
    assert m.IsExcluded("ExcludedIsAdmin");
  }

  const FakeRecord: Record := [Entry("id", Int(42)), Entry("some_column", Text("Test")), Entry("This_is_a_Test", Bool(true)),
                               Entry("ExcludedIsAdmin", Bool(true)), Entry("Implicit", Text("Implicit"))]

  /**
   * A five-entry record whose fourth key is dropped and whose other keys
   * resolve: each resolved value lands on its property, in entry order.
   */
  lemma FourOfFive(e0: Entry, e1: Entry, e2: Entry, e3: Entry, e4: Entry, ps: seq<string>, m: ObjectMapping,
                   init: map<string, Value>, p0: string, p1: string, p2: string, p4: string)
    requires FindProperty(ps, m, e0.key) == Ok(Some(p0))
    requires FindProperty(ps, m, e1.key) == Ok(Some(p1))
    requires FindProperty(ps, m, e2.key) == Ok(Some(p2))
    requires FindProperty(ps, m, e3.key) == Ok(None)
    requires FindProperty(ps, m, e4.key) == Ok(Some(p4))
    ensures MapSpec([e0, e1, e2, e3, e4], ps, m, init, AcceptAll)
         == Ok(init[p0 := e0.value][p1 := e1.value][p2 := e2.value][p4 := e4.value])
  {
    var rec := [e0, e1, e2, e3, e4];
    assert rec[0] == e0 && rec[1] == e1 && rec[2] == e2 && rec[3] == e3 && rec[4] == e4;
    FourOfFiveAt(rec, ps, m, init, p0, p1, p2, p4);
  }

  /** The same, for any record of five entries. */
  lemma FourOfFiveAt(rec: Record, ps: seq<string>, m: ObjectMapping, init: map<string, Value>,
                     p0: string, p1: string, p2: string, p4: string)
    requires |rec| == 5
    requires FindProperty(ps, m, rec[0].key) == Ok(Some(p0))
    requires FindProperty(ps, m, rec[1].key) == Ok(Some(p1))
    requires FindProperty(ps, m, rec[2].key) == Ok(Some(p2))
    requires FindProperty(ps, m, rec[3].key) == Ok(None)
    requires FindProperty(ps, m, rec[4].key) == Ok(Some(p4))
    ensures MapSpec(rec, ps, m, init, AcceptAll)
         == Ok(init[p0 := rec[0].value][p1 := rec[1].value][p2 := rec[2].value][p4 := rec[4].value])
  {
    var d1 := init[p0 := rec[0].value];
    var d2 := d1[p1 := rec[1].value];
    var d3 := d2[p2 := rec[2].value];
    assert MapSpec(rec[..1], ps, m, init, AcceptAll) == Ok(d1) by {
      assert rec[..0] == [];
      MapExtend(rec, ps, m, init, AcceptAll, 0, init);
    }
    assert MapSpec(rec[..2], ps, m, init, AcceptAll) == Ok(d2) by {
      MapExtend(rec, ps, m, init, AcceptAll, 1, d1);
    }
    assert MapSpec(rec[..3], ps, m, init, AcceptAll) == Ok(d3) by {
      MapExtend(rec, ps, m, init, AcceptAll, 2, d2);
    }
    assert MapSpec(rec[..4], ps, m, init, AcceptAll) == Ok(d3) by {
      MapExtend(rec, ps, m, init, AcceptAll, 3, d3);
    }
    assert MapSpec(rec[..5], ps, m, init, AcceptAll) == Ok(d3[p4 := rec[4].value]) by {
      MapExtend(rec, ps, m, init, AcceptAll, 4, d3);
    }
    assert rec[..5] == rec;
  }

  /** The destination the test expects, as the four assignments made on top of the defaults. */
  function FakeExpected(): map<string, Value>
  {
    FakeDefaults["ID" := Int(42)]["SomeProperty" := Text("Test")]["ThisIsATest" := Bool(true)]["Implicit" := Text("Implicit")]
  }

  lemma FakeExpectedValues()
    ensures var d := FakeExpected();
      d.Keys == FakeDefaults.Keys
      && d["ID"] == Int(42) && d["SomeProperty"] == Text("Test") && d["ThisIsATest"] == Bool(true)
      && d["ExcludedIsAdmin"] == Bool(false) && d["Implicit"] == Text("Implicit")
  {
    FakeLengths();
  }

  /**
   * Renamed keys land on their targets, the excluded key is dropped so its
   * property keeps its default, and an unrenamed key lands on the property
   * of the same name.
   */
  lemma FakeProjection(m: ObjectMapping)
    requires IsFakeMapping(m)
    ensures var r := MapSpec(FakeRecord, FakeProperties, m, FakeDefaults, AcceptAll);
      r.Ok? && r.value.Keys == FakeDefaults.Keys
      && r.value["ID"] == Int(42) && r.value["SomeProperty"] == Text("Test") && r.value["ThisIsATest"] == Bool(true)
      && r.value["ExcludedIsAdmin"] == Bool(false) && r.value["Implicit"] == Text("Implicit")
  {
    assert MapSpec(FakeRecord, FakeProperties, m, FakeDefaults, AcceptAll) == Ok(FakeExpected()) by {
      FakeResolutions(m);
      FourOfFive(Entry("id", Int(42)), Entry("some_column", Text("Test")), Entry("This_is_a_Test", Bool(true)),
                 Entry("ExcludedIsAdmin", Bool(true)), Entry("Implicit", Text("Implicit")),
                 FakeProperties, m, FakeDefaults, "ID", "SomeProperty", "ThisIsATest", "Implicit");
    }
    FakeExpectedValues();
  }
}
