/** The values that flow between the query engine, the library and its callers. */
module Data {
  import opened Common

  /** The runtime type a result-set column reports for its values. */
  datatype FieldType =
    | Int16 | Int32 | Int64 | Byte | Boolean
    | Decimal | Double | Single | DateTime | Guid
    | String | Bytes | Object

  /** Value types get a zero default; String, byte arrays and Object are references. */
  predicate IsValueType(t: FieldType)
  {
    !(t.String? || t.Bytes? || t.Object?)
  }

  predicate IsIntegral(t: FieldType)
  {
    t.Int16? || t.Int32? || t.Int64? || t.Byte?
  }

  /**
   * A loosely typed value. `Null` stands for both a null reference and a
   * database null; `Zero(t)` is the zero of a value type with no exact
   * representation here (0m, 0.0, DateTime.MinValue, Guid.Empty); `Opaque`
   * is any other value of such a type (floating point, dates).
   */
  datatype Value =
    | Null
    | Int(i: int)
    | Bool(b: bool)
    | Text(s: string)
    | Zero(zeroOf: FieldType)
    | Opaque(kind: FieldType, token: int)

  /** The provider type a parameter is bound with. */
  datatype OleDbType =
    | Numeric | BigInt | Integer | Boolean | Currency
    | VarWChar | LongVarWChar | Date | OtherType(code: int)

  /** A named query parameter; immutable once built. */
  datatype Param = Param(name: string, value: Value, dbType: OleDbType)

  /** A parameter array as callers pass it: the array itself or any element may be null. */
  type ParamArray = Option<seq<Option<Param>>>

  /** One column of the current row: its reported name, its type and the provider's raw value. */
  datatype Cell = Cell(name: string, fieldType: FieldType, raw: Value)
  type Row = seq<Cell>

  /** One entry of a materialised record; a record keeps column order. */
  datatype Entry = Entry(key: string, value: Value)
  type Record = seq<Entry>

  /** A prepared statement: its text and the parameters bound to it, in binding order. */
  datatype Command = Command(text: string, parameters: seq<Param>)

  datatype ExecKind = ReaderKind | NonQueryKind | ScalarKind

  /** One statement sent to the engine on a connection. */
  datatype Execution = Execution(kind: ExecKind, command: Command)

  datatype DbError = DbError(message: string)

  /**
   * Everything outside the library: the engine answers each statement as a
   * function of the statements run before it on the connection (which is
   * all the database state can depend on), and the runtime's conversions.
   */
  datatype Provider = Provider(
    reader: (seq<Execution>, Command) -> Result<seq<Row>, DbError>,
    nonQuery: (seq<Execution>, Command) -> Result<int, DbError>,
    scalar: (seq<Execution>, Command) -> Result<Value, DbError>,
    changeType: (Value, FieldType) -> Option<Value>,
    toInt64: Value -> Option<int>)

  /** The batch fields whose absence is reported as a missing field. */
  datatype RequiredField = QueryField | IdField | ParametersField | NonNullParameters | QueryTypeField

  /** The exceptions the core raises or lets through. */
  datatype Error =
    | MissingField(field: RequiredField)           // MissingFieldException
    | DuplicateKey(id: int)                        // ArgumentException: id already a result key
    | UnsupportedQueryType                         // MissingMemberException
    | AmbiguousParameter(name: string)             // SingleOrDefault found two parameters
    | NullParameter                                // null element while building the pattern
    | DuplicateColumn(column: string)              // ArgumentException adding a record key
    | ConnectionClosed                             // executing on a connection that is not open
    | ConnectionFailed(attempts: nat, dataSource: string)
    | EngineError(cause: DbError)                  // the engine rejected the statement
    | IdentityConversion                           // Convert.ToInt64 failed on @@identity
}
