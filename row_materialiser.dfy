/**
 * Turning the reader's current row into a record: one entry per column, in
 * column order, with a failed conversion replaced by the column type's
 * default value.
 */
module RowMaterialiser {
  import opened Common
  import opened Data

  /** The default of a column type: a zero for value types, null for reference types. */
  function DefaultValue(t: FieldType): (v: Value)
    ensures v == Null <==> !IsValueType(t)
    ensures IsIntegral(t) ==> v == Int(0)
    ensures t.Boolean? ==> v == Bool(false)
    ensures IsValueType(t) && !IsIntegral(t) && !t.Boolean? ==> v == Zero(t)
  {
    if IsIntegral(t) then Int(0)
    else if t.Boolean? then Bool(false)
    else if IsValueType(t) then Zero(t)
    else Null
  }

  /** What is stored for one column: the converted raw value, or the default when the conversion throws. */
  function ColumnValue(c: Cell, changeType: (Value, FieldType) -> Option<Value>): Value
  {
    match changeType(c.raw, c.fieldType)
    case Some(v) => v
    case None => DefaultValue(c.fieldType)
  }

  predicate HasKey(r: Record, k: string)
  {
    exists i :: 0 <= i < |r| && r[i].key == k
  }

  /** The record built column by column; adding a name already present throws. */
  function Materialise(row: Row, changeType: (Value, FieldType) -> Option<Value>): (r: Result<Record, Error>)
    ensures r.Ok? ==> |r.value| == |row| && forall i :: 0 <= i < |row| ==> r.value[i].key == row[i].name
    ensures r.Failure? ==> r.error.DuplicateColumn?
  {
    if row == [] then Ok([])
    else
      var c := row[|row| - 1];
      match Materialise(row[..|row| - 1], changeType)
      case Failure(e) => Failure(e)
      case Ok(r) =>
        if HasKey(r, c.name) then Failure(DuplicateColumn(c.name))
        else Ok(r + [Entry(c.name, ColumnValue(c, changeType))])
  }

  predicate DistinctNames(row: Row)
  {
    forall i, j :: 0 <= i < j < |row| ==> row[i].name != row[j].name
  }

  /**
   * A row materialises iff its column names are distinct; the record then
   * has one entry per column, in column order, holding the converted value
   * or the type default. Otherwise the exception names a repeated column.
   */
  lemma {:induction false} MaterialiseShape(row: Row, changeType: (Value, FieldType) -> Option<Value>)
    ensures Materialise(row, changeType).Ok? <==> DistinctNames(row)
    ensures Materialise(row, changeType).Ok? ==>
      var r := Materialise(row, changeType).value;
      |r| == |row| && forall i :: 0 <= i < |row| ==> r[i] == Entry(row[i].name, ColumnValue(row[i], changeType))
    ensures Materialise(row, changeType).Failure? ==>
      exists i, j :: 0 <= i < j < |row| && Materialise(row, changeType).error == DuplicateColumn(row[j].name)
                     && row[i].name == row[j].name
  {
    if row != [] {
      var n := |row| - 1;
      var init := row[..n];
      var c := row[n];
      MaterialiseShape(init, changeType);
      assert forall i :: 0 <= i < n ==> init[i] == row[i];
      match Materialise(init, changeType)
      case Failure(e) =>
        var i, j :| 0 <= i < j < |init| && e == DuplicateColumn(init[j].name) && init[i].name == init[j].name;
        assert row[i].name == row[j].name;
      case Ok(r) =>
        if HasKey(r, c.name) {
          var i :| 0 <= i < |r| && r[i].key == c.name;
          assert row[i].name == row[n].name;
        } else {
          var all := r + [Entry(c.name, ColumnValue(c, changeType))];
          assert Materialise(row, changeType) == Ok(all);
          forall i, j | 0 <= i < j < |row| ensures row[i].name != row[j].name {
            if j == n {
              assert r[i].key == row[i].name;
            }
          }
        }
    }
  }

  /** BuildDynamicResult: null when the reader has no rows, else the record for the current row. */
  method BuildDynamicResult(hasRows: bool, row: Row, changeType: (Value, FieldType) -> Option<Value>)
    returns (r: Result<Option<Record>, Error>)
    ensures !hasRows ==> r == Ok(None)
    ensures hasRows && Materialise(row, changeType).Ok? ==> r == Ok(Some(Materialise(row, changeType).value))
    ensures hasRows && Materialise(row, changeType).Failure? ==> r == Failure(Materialise(row, changeType).error)
  {
    if !hasRows {
      return Ok(None);
    }
    var record: Record := [];
    var i := 0;
    while i < |row|
      invariant 0 <= i <= |row|
      invariant Materialise(row[..i], changeType) == Ok(record)
    {
      var c := row[i];
      assert row[..i + 1][..i] == row[..i] && row[..i + 1][i] == c;
      var value := match changeType(c.raw, c.fieldType)
        case Some(v) => v
        case None => DefaultValue(c.fieldType);
      if HasKey(record, c.name) {
        MaterialisePrefixFailure(row, changeType, i + 1);
        return Failure(DuplicateColumn(c.name));
      }
      record := record + [Entry(c.name, value)];
      i := i + 1;
    }
    assert row[..i] == row;
    r := Ok(Some(record));
  }

  /** Once a prefix of the columns fails, the whole row fails with the same exception. */
  lemma {:induction false} MaterialisePrefixFailure(row: Row, changeType: (Value, FieldType) -> Option<Value>, n: nat)
    requires n <= |row| && Materialise(row[..n], changeType).Failure?
    ensures Materialise(row, changeType) == Materialise(row[..n], changeType)
    decreases |row| - n
  {
    if n < |row| {
      assert row[..n + 1][..n] == row[..n];
      MaterialisePrefixFailure(row, changeType, n + 1);
    } else {
      assert row[..n] == row;
    }
  }

  /** The records of every row, in row order; the first row that fails ends the sequence with its exception. */
  function MaterialiseAll(rows: seq<Row>, changeType: (Value, FieldType) -> Option<Value>): (r: Result<seq<Record>, Error>)
    ensures r.Ok? ==> |r.value| == |rows|
    ensures r.Failure? ==> r.error.DuplicateColumn?
  {
    if rows == [] then Ok([])
    else
      match MaterialiseAll(rows[..|rows| - 1], changeType)
      case Failure(e) => Failure(e)
      case Ok(rs) =>
        match Materialise(rows[|rows| - 1], changeType)
        case Failure(e) => Failure(e)
        case Ok(r) => Ok(rs + [r])
  }

  /** Draining the reader yields one record per row, in row order, unless some row has a repeated column name. */
  lemma {:induction false} MaterialiseAllShape(rows: seq<Row>, changeType: (Value, FieldType) -> Option<Value>)
    ensures MaterialiseAll(rows, changeType).Ok? <==> forall k :: 0 <= k < |rows| ==> Materialise(rows[k], changeType).Ok?
    ensures MaterialiseAll(rows, changeType).Ok? ==>
      var rs := MaterialiseAll(rows, changeType).value;
      |rs| == |rows| && forall k :: 0 <= k < |rows| ==> rs[k] == Materialise(rows[k], changeType).value
  {
    if rows != [] {
      var n := |rows| - 1;
      var init := rows[..n];
      MaterialiseAllShape(init, changeType);
      assert forall k :: 0 <= k < n ==> init[k] == rows[k];
      if MaterialiseAll(init, changeType).Ok? && Materialise(rows[n], changeType).Ok? {
        var rs := MaterialiseAll(init, changeType).value;
        var all := rs + [Materialise(rows[n], changeType).value];
        assert MaterialiseAll(rows, changeType) == Ok(all);
      }
    }
  }

  /**
   * What the single-row read returns: null for an empty result set, and null
   * as well when building the record throws, since that exception is swallowed.
   */
  function FirstRecord(rows: seq<Row>, changeType: (Value, FieldType) -> Option<Value>): (r: Option<Record>)
    ensures r.Some? ==> rows != [] && |r.value| == |rows[0]|
  {
    if rows == [] then None
    else match Materialise(rows[0], changeType)
      case Ok(r) => Some(r)
      case Failure(_) => None
  }

  lemma FirstRecordIsNullExactly(rows: seq<Row>, changeType: (Value, FieldType) -> Option<Value>)
    ensures FirstRecord(rows, changeType).None? <==> rows == [] || !DistinctNames(rows[0])
    ensures FirstRecord(rows, changeType).Some? ==>
      var r := FirstRecord(rows, changeType).value;
      |r| == |rows[0]| && forall i :: 0 <= i < |r| ==> r[i] == Entry(rows[0][i].name, ColumnValue(rows[0][i], changeType))
  {
    if rows != [] {
      MaterialiseShape(rows[0], changeType);
    }
  }
}
