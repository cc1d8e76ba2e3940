/**
 * Projecting a materialised record onto a destination object: the mapping
 * object (renames and exclusions), property resolution, and the mapper
 * that assigns values entry by entry.
 *
 * A destination is its list of public property names and a map from
 * property name to current value.
 */
module Mapping {
  import opened Common
  import opened Data

  datatype MappingError =
    | DuplicateMapping(from: string)        // the rename dictionary already holds the source name
    | AmbiguousProperty(name: string)       // more than one property matches, ignoring case
    | Rejected(property: string)            // the property refused the value when set

  /** A rename dictionary plus an exclusion list, filled by a subclass's constructor. */
  class ObjectMapping {
    var mappings: map<string, string>
    var exclusions: seq<string>

    constructor ()
      ensures mappings == map[] && exclusions == []
    {
      mappings := map[];
      exclusions := [];
    }

    /** Get: the registered rename of `from`, or null; names compare exactly. */
    function Get(from: string): (r: Option<string>)
      reads this
    {
      if from in mappings then Some(mappings[from]) else None
    }

    /** IsExcluded: whether `field` was excluded; names compare exactly. */
    predicate IsExcluded(field: string)
      reads this
    {
      field in exclusions
    }

    /** Map: registers a rename; a source name already registered throws and leaves every rename as it was. */
    method Map(from: string, to: string) returns (r: Option<MappingError>)
      modifies this`mappings
      ensures old(Get(from)).Some? ==> r == Some(DuplicateMapping(from)) && mappings == old(mappings)
      ensures old(Get(from)).None? ==> r == None && mappings == old(mappings)[from := to] && Get(from) == Some(to)
      ensures forall n :: n != from ==> Get(n) == old(Get(n))
      ensures forall f :: IsExcluded(f) == old(IsExcluded(f))
    {
      if from in mappings {
        return Some(DuplicateMapping(from));
      }
      mappings := mappings[from := to];
      r := None;
    }

    /** Exclude: adds `field` to the exclusions; excluding a field twice is allowed. */
    method Exclude(field: string)
      modifies this`exclusions
      ensures exclusions == old(exclusions) + [field]
      ensures IsExcluded(field)
      ensures forall f :: f != field ==> IsExcluded(f) == old(IsExcluded(f))
      ensures forall n :: Get(n) == old(Get(n))
    {
      exclusions := exclusions + [field];
    }
  }

  /** The properties whose name equals `target` ignoring case, in declaration order. */
  function Matching(props: seq<string>, target: string): (r: seq<string>)
    ensures |r| <= |props|
  {
    if props == [] then []
    else (if EqualsIgnoreCase(props[0], target) then [props[0]] else []) + Matching(props[1..], target)
  }

  lemma {:induction false} MatchingMembers(props: seq<string>, target: string)
    ensures forall p :: p in Matching(props, target) <==> p in props && EqualsIgnoreCase(p, target)
  {
    if props != [] {
      MatchingMembers(props[1..], target);
      assert forall p :: p in props <==> p == props[0] || p in props[1..];
    }
  }

  /** SingleOrDefault over the properties: none, the one match, or an exception when several match. */
  function SingleMatch(props: seq<string>, target: string): (r: Result<Option<string>, MappingError>)
    ensures r == Ok(None) <==> forall p :: p in props ==> !EqualsIgnoreCase(p, target)
    ensures r.Ok? && r.value.Some? ==> r.value.value in props && EqualsIgnoreCase(r.value.value, target)
    ensures r.Failure? <==> |Matching(props, target)| > 1
  {
    MatchingMembers(props, target);
    var hits := Matching(props, target);
    if |hits| == 0 then Ok(None)
    else if |hits| == 1 then
      assert hits[0] in hits;
      Ok(Some(hits[0]))
    else
      assert hits[0] in hits;
      Failure(AmbiguousProperty(target))
  }

  /**
   * FindProperty: an excluded key resolves to nothing; otherwise the
   * property named by the key's rename, and failing that the property named
   * by the key itself, both matched ignoring case.
   */
  function FindProperty(props: seq<string>, mapping: ObjectMapping, key: string): (r: Result<Option<string>, MappingError>)
    reads mapping
    ensures r.Ok? && r.value.Some? ==> !mapping.IsExcluded(key) && r.value.value in props
    ensures r.Failure? ==> r.error.AmbiguousProperty?
  {
    if mapping.IsExcluded(key) then Ok(None)
    else
      var renamed: Result<Option<string>, MappingError> := match mapping.Get(key)
        case None => Ok(None)
        case Some(to) => SingleMatch(props, to);
      match renamed
      case Failure(e) => Failure(e)
      case Ok(Some(p)) => Ok(Some(p))
      case Ok(None) => SingleMatch(props, key)
  }

  /** No property matches `target`, ignoring case. */
  predicate NoMatch(props: seq<string>, target: string)
  {
    forall p :: p in props ==> !EqualsIgnoreCase(p, target)
  }

  /** The rename of `key` names no property (or there is none). */
  predicate RenameMisses(props: seq<string>, mapping: ObjectMapping, key: string)
    reads mapping
  {
    mapping.Get(key).None? || NoMatch(props, mapping.Get(key).value)
  }

  /**
   * How a key resolves: exclusion wins over any rename; a resolved property
   * matches the rename when the rename names some property, else the key;
   * a key resolves to nothing iff it is excluded or neither matches; and
   * resolution throws iff the deciding name matches several properties.
   */
  lemma FindPropertyResolution(props: seq<string>, mapping: ObjectMapping, key: string)
    ensures mapping.IsExcluded(key) ==> FindProperty(props, mapping, key) == Ok(None)
    ensures !mapping.IsExcluded(key) && mapping.Get(key).Some? && !NoMatch(props, mapping.Get(key).value)
            && FindProperty(props, mapping, key).Ok? ==>
              var r := FindProperty(props, mapping, key);
              r.value.Some? && r.value.value in props && EqualsIgnoreCase(r.value.value, mapping.Get(key).value)
    ensures !mapping.IsExcluded(key) && RenameMisses(props, mapping, key) ==>
              FindProperty(props, mapping, key) == SingleMatch(props, key)
    ensures FindProperty(props, mapping, key) == Ok(None) <==>
              mapping.IsExcluded(key) || (RenameMisses(props, mapping, key) && NoMatch(props, key))
    ensures FindProperty(props, mapping, key).Failure? <==>
              !mapping.IsExcluded(key)
              && ((mapping.Get(key).Some? && |Matching(props, mapping.Get(key).value)| > 1)
                  || (RenameMisses(props, mapping, key) && |Matching(props, key)| > 1))
  {
  }

  /**
   * The destination after applying `record` entry by entry to `initial`:
   * each entry whose key resolves to a property overwrites that property;
   * the first resolution or assignment that throws ends the projection.
   */
  function MapSpec(record: Record, props: seq<string>, mapping: ObjectMapping, initial: map<string, Value>,
                   accepts: (string, Value) -> bool): (r: Result<map<string, Value>, MappingError>)
    reads mapping
    ensures r.Ok? ==> initial.Keys <= r.value.Keys
  {
    if record == [] then Ok(initial)
    else
      var e := record[|record| - 1];
      match MapSpec(record[..|record| - 1], props, mapping, initial, accepts)
      case Failure(err) => Failure(err)
      case Ok(dest) =>
        match FindProperty(props, mapping, e.key)
        case Failure(err) => Failure(err)
        case Ok(None) => Ok(dest)
        case Ok(Some(prop)) =>
          if accepts(prop, e.value) then Ok(dest[prop := e.value]) else Failure(Rejected(prop))
  }

  /** Entry i resolves to property x. */
  predicate ResolvesTo(record: Record, props: seq<string>, mapping: ObjectMapping, i: int, x: string)
    reads mapping
    requires 0 <= i < |record|
  {
    FindProperty(props, mapping, record[i].key) == Ok(Some(x))
  }

  /** No entry from i on resolves to x. */
  predicate NoLaterWriter(record: Record, props: seq<string>, mapping: ObjectMapping, i: nat, x: string)
    reads mapping
  {
    forall j :: i <= j < |record| ==> !ResolvesTo(record, props, mapping, j, x)
  }

  /** One more entry: what the projection of `record` is, given that of all entries but the last. */
  lemma MapStep(record: Record, props: seq<string>, mapping: ObjectMapping,
                initial: map<string, Value>, accepts: (string, Value) -> bool)
    requires record != [] && MapSpec(record, props, mapping, initial, accepts).Ok?
    ensures var n := |record| - 1;
      var before := MapSpec(record[..n], props, mapping, initial, accepts);
      var f := FindProperty(props, mapping, record[n].key);
      before.Ok? && f.Ok?
      && (f.value.None? ==> MapSpec(record, props, mapping, initial, accepts).value == before.value)
      && (f.value.Some? ==> MapSpec(record, props, mapping, initial, accepts).value == before.value[f.value.value := record[n].value])
  {
  }

  /** Extending a successful prefix by one entry, from how that entry resolves. */
  lemma MapExtend(record: Record, props: seq<string>, mapping: ObjectMapping, initial: map<string, Value>,
                  accepts: (string, Value) -> bool, n: nat, dest: map<string, Value>)
    requires n < |record| && MapSpec(record[..n], props, mapping, initial, accepts) == Ok(dest)
    requires FindProperty(props, mapping, record[n].key).Ok?
    ensures var f := FindProperty(props, mapping, record[n].key);
      (f.value.None? ==> MapSpec(record[..n + 1], props, mapping, initial, accepts) == Ok(dest))
      && (f.value.Some? && accepts(f.value.value, record[n].value) ==>
            MapSpec(record[..n + 1], props, mapping, initial, accepts) == Ok(dest[f.value.value := record[n].value]))
  {
    assert record[..n + 1][..n] == record[..n];
  }

  /** One more entry adds at most the property that entry resolves to. */
  lemma MapDomainStep(record: Record, props: seq<string>, mapping: ObjectMapping,
                      initial: map<string, Value>, accepts: (string, Value) -> bool, x: string)
    requires record != [] && MapSpec(record, props, mapping, initial, accepts).Ok?
    ensures var n := |record| - 1;
      MapSpec(record[..n], props, mapping, initial, accepts).Ok?
      && (x in MapSpec(record, props, mapping, initial, accepts).value <==>
            x in MapSpec(record[..n], props, mapping, initial, accepts).value || ResolvesTo(record, props, mapping, n, x))
  {
    MapStep(record, props, mapping, initial, accepts);
  }

  /** A successful projection adds no property beyond the initial ones and those some entry resolves to. */
  lemma {:induction false} MapDomain(record: Record, props: seq<string>, mapping: ObjectMapping,
                                     initial: map<string, Value>, accepts: (string, Value) -> bool)
    ensures var r := MapSpec(record, props, mapping, initial, accepts);
      r.Ok? ==> forall x :: x in r.value <==> x in initial || exists i :: 0 <= i < |record| && ResolvesTo(record, props, mapping, i, x)
  {
    var r := MapSpec(record, props, mapping, initial, accepts);
    if record != [] && r.Ok? {
      var n := |record| - 1;
      var init := record[..n];
      MapDomain(init, props, mapping, initial, accepts);
      forall x ensures x in r.value <==> x in initial || exists i :: 0 <= i < |record| && ResolvesTo(record, props, mapping, i, x) {
        MapDomainStep(record, props, mapping, initial, accepts, x);
        var dest := MapSpec(init, props, mapping, initial, accepts).value;
        assert x in dest <==> x in initial || exists i :: 0 <= i < n && ResolvesTo(init, props, mapping, i, x);
        assert forall i :: 0 <= i < n ==> (ResolvesTo(init, props, mapping, i, x) <==> ResolvesTo(record, props, mapping, i, x)) by {
          forall i | 0 <= i < n ensures ResolvesTo(init, props, mapping, i, x) <==> ResolvesTo(record, props, mapping, i, x) {
            assert init[i] == record[i];
          }
        }
      }
    }
  }

  /** A property no entry resolves to keeps its initial value. */
  lemma {:induction false} MapUntouched(record: Record, props: seq<string>, mapping: ObjectMapping,
                                        initial: map<string, Value>, accepts: (string, Value) -> bool)
    ensures var r := MapSpec(record, props, mapping, initial, accepts);
      r.Ok? ==> forall x :: x in initial && NoLaterWriter(record, props, mapping, 0, x) ==> x in r.value && r.value[x] == initial[x]
  {
    var r := MapSpec(record, props, mapping, initial, accepts);
    if record != [] && r.Ok? {
      var n := |record| - 1;
      var init := record[..n];
      MapStep(record, props, mapping, initial, accepts);
      MapUntouched(init, props, mapping, initial, accepts);
      forall x | x in initial && NoLaterWriter(record, props, mapping, 0, x) ensures x in r.value && r.value[x] == initial[x] {
        assert !ResolvesTo(record, props, mapping, n, x);
        assert NoLaterWriter(init, props, mapping, 0, x) by {
          forall j | 0 <= j < n ensures !ResolvesTo(init, props, mapping, j, x) {
            assert init[j] == record[j];
            assert !ResolvesTo(record, props, mapping, j, x);
          }
        }
      }
    }
  }

  /** Entries apply in order, so a property holds the value of the last entry resolving to it. */
  lemma {:induction false} MapLastWriterWins(record: Record, props: seq<string>, mapping: ObjectMapping,
                                             initial: map<string, Value>, accepts: (string, Value) -> bool)
    ensures var r := MapSpec(record, props, mapping, initial, accepts);
      r.Ok? ==> forall i: nat, x ::
        (i < |record| && ResolvesTo(record, props, mapping, i, x) && NoLaterWriter(record, props, mapping, i + 1, x))
        ==> x in r.value && r.value[x] == record[i].value
  {
    var r := MapSpec(record, props, mapping, initial, accepts);
    if record != [] && r.Ok? {
      var n := |record| - 1;
      var init := record[..n];
      MapStep(record, props, mapping, initial, accepts);
      MapLastWriterWins(init, props, mapping, initial, accepts);
      forall i: nat, x | i < |record| && ResolvesTo(record, props, mapping, i, x) && NoLaterWriter(record, props, mapping, i + 1, x)
        ensures x in r.value && r.value[x] == record[i].value
      {
        if i < n {
          assert !ResolvesTo(record, props, mapping, n, x);
          assert init[i] == record[i];
          assert ResolvesTo(init, props, mapping, i, x);
          assert NoLaterWriter(init, props, mapping, i + 1, x) by {
            forall j | i + 1 <= j < n ensures !ResolvesTo(init, props, mapping, j, x) {
              assert init[j] == record[j];
              assert !ResolvesTo(record, props, mapping, j, x);
            }
          }
        }
      }
    }
  }

  /** Entry i throws: its key's resolution fails or its property refuses its value. */
  predicate EntryThrows(record: Record, props: seq<string>, mapping: ObjectMapping, accepts: (string, Value) -> bool, i: int)
    reads mapping
    requires 0 <= i < |record|
  {
    var f := FindProperty(props, mapping, record[i].key);
    f.Failure? || (f.value.Some? && !accepts(f.value.value, record[i].value))
  }

  /** The projection throws iff some entry throws. */
  lemma {:induction false} MapFailsIffSomeEntryThrows(record: Record, props: seq<string>, mapping: ObjectMapping,
                                                      initial: map<string, Value>, accepts: (string, Value) -> bool)
    ensures MapSpec(record, props, mapping, initial, accepts).Failure? <==>
      exists i :: 0 <= i < |record| && EntryThrows(record, props, mapping, accepts, i)
  {
    if record != [] {
      var n := |record| - 1;
      var init := record[..n];
      MapFailsIffSomeEntryThrows(init, props, mapping, initial, accepts);
      forall i | 0 <= i < n ensures EntryThrows(init, props, mapping, accepts, i) == EntryThrows(record, props, mapping, accepts, i) {
        assert init[i] == record[i];
      }
      var before := MapSpec(init, props, mapping, initial, accepts);
      if before.Ok? {
        assert MapSpec(record, props, mapping, initial, accepts).Failure? <==> EntryThrows(record, props, mapping, accepts, n);
      } else {
        var i :| 0 <= i < n && EntryThrows(init, props, mapping, accepts, i);
        assert EntryThrows(record, props, mapping, accepts, i);
      }
    }
  }

  /** Mapper.Map: applies the record's entries in order to a fresh destination. */
  method Map(record: Record, props: seq<string>, mapping: ObjectMapping, initial: map<string, Value>,
             accepts: (string, Value) -> bool) returns (r: Result<map<string, Value>, MappingError>)
    ensures r == MapSpec(record, props, mapping, initial, accepts)
  {
    var dest := initial;
    var i := 0;
    while i < |record|
      invariant 0 <= i <= |record|
      invariant MapSpec(record[..i], props, mapping, initial, accepts) == Ok(dest)
    {
      var e := record[i];
      assert record[..i + 1][..i] == record[..i] && record[..i + 1][i] == e;
      var property := FindProperty(props, mapping, e.key);
      if property.Failure? {
        MapPrefixFailure(record, props, mapping, initial, accepts, i + 1);
        return Failure(property.error);
      }
      if property.value.Some? {
        var prop := property.value.value;
        if !accepts(prop, e.value) {
          MapPrefixFailure(record, props, mapping, initial, accepts, i + 1);
          return Failure(Rejected(prop));
        }
        dest := dest[prop := e.value];
      }
      i := i + 1;
    }
    assert record[..i] == record;
    r := Ok(dest);
  }

  /** Once a prefix of the entries throws, the whole projection throws the same. */
  lemma {:induction false} MapPrefixFailure(record: Record, props: seq<string>, mapping: ObjectMapping,
                                            initial: map<string, Value>, accepts: (string, Value) -> bool, n: nat)
    requires n <= |record| && MapSpec(record[..n], props, mapping, initial, accepts).Failure?
    ensures MapSpec(record, props, mapping, initial, accepts) == MapSpec(record[..n], props, mapping, initial, accepts)
    decreases |record| - n
  {
    if n < |record| {
      assert record[..n + 1][..n] == record[..n];
      MapPrefixFailure(record, props, mapping, initial, accepts, n + 1);
    } else {
      assert record[..n] == record;
    }
  }

  /** MapMany: one destination per record, in record order, each projected from the same initial state. */
  function MapManySpec(records: seq<Record>, props: seq<string>, mapping: ObjectMapping, initial: map<string, Value>,
                       accepts: (string, Value) -> bool): (r: Result<seq<map<string, Value>>, MappingError>)
    reads mapping
    ensures r.Ok? ==> |r.value| == |records|
  {
    if records == [] then Ok([])
    else
      match MapManySpec(records[..|records| - 1], props, mapping, initial, accepts)
      case Failure(e) => Failure(e)
      case Ok(ds) =>
        match MapSpec(records[|records| - 1], props, mapping, initial, accepts)
        case Failure(e) => Failure(e)
        case Ok(d) => Ok(ds + [d])
  }

  /** MapMany succeeds iff every record maps, and then element k is the projection of record k. */
  lemma {:induction false} MapManyShape(records: seq<Record>, props: seq<string>, mapping: ObjectMapping,
                                        initial: map<string, Value>, accepts: (string, Value) -> bool)
    ensures MapManySpec(records, props, mapping, initial, accepts).Ok? <==>
      forall k :: 0 <= k < |records| ==> MapSpec(records[k], props, mapping, initial, accepts).Ok?
    ensures MapManySpec(records, props, mapping, initial, accepts).Ok? ==>
      var ds := MapManySpec(records, props, mapping, initial, accepts).value;
      |ds| == |records| && forall k :: 0 <= k < |records| ==> ds[k] == MapSpec(records[k], props, mapping, initial, accepts).value
  {
    if records != [] {
      var n := |records| - 1;
      var init := records[..n];
      MapManyShape(init, props, mapping, initial, accepts);
      assert forall k :: 0 <= k < n ==> init[k] == records[k];
      var before := MapManySpec(init, props, mapping, initial, accepts);
      var last := MapSpec(records[n], props, mapping, initial, accepts);
      assert MapManySpec(records, props, mapping, initial, accepts)
          == if before.Failure? then Failure(before.error)
             else if last.Failure? then Failure(last.error)
             else Ok(before.value + [last.value]);
    }
  }

  method MapMany(records: seq<Record>, props: seq<string>, mapping: ObjectMapping, initial: map<string, Value>,
                 accepts: (string, Value) -> bool) returns (r: Result<seq<map<string, Value>>, MappingError>)
    ensures r == MapManySpec(records, props, mapping, initial, accepts)
  {
    var items: seq<map<string, Value>> := [];
    var i := 0;
    while i < |records|
      invariant 0 <= i <= |records|
      invariant MapManySpec(records[..i], props, mapping, initial, accepts) == Ok(items)
    {
      assert records[..i + 1][..i] == records[..i] && records[..i + 1][i] == records[i];
      var d := Map(records[i], props, mapping, initial, accepts);
      if d.Failure? {
        MapManyPrefixFailure(records, props, mapping, initial, accepts, i + 1);
        return Failure(d.error);
      }
      items := items + [d.value];
      i := i + 1;
    }
    assert records[..i] == records;
    r := Ok(items);
  }

  lemma {:induction false} MapManyPrefixFailure(records: seq<Record>, props: seq<string>, mapping: ObjectMapping,
                                                initial: map<string, Value>, accepts: (string, Value) -> bool, n: nat)
    requires n <= |records| && MapManySpec(records[..n], props, mapping, initial, accepts).Failure?
    ensures MapManySpec(records, props, mapping, initial, accepts) == MapManySpec(records[..n], props, mapping, initial, accepts)
    decreases |records| - n
  {
    if n < |records| {
      assert records[..n + 1][..n] == records[..n];
      MapManyPrefixFailure(records, props, mapping, initial, accepts, n + 1);
    } else {
      assert records[..n] == records;
    }
  }
}
