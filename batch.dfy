/** The items of a multiple-query batch and the checks each one must pass before it runs. */
module Batch {
  import opened Common
  import opened Data
  import ParameterBinder

  /** The statement kinds; `Undefined` is any other value a nullable enum field can hold. */
  datatype QueryType = ExecuteSingle | ExecuteMany | ExecuteNonQuery | ExecuteScalar | Undefined(code: int)

  /** One batch item: its result key, its text, its parameters and its kind, each of which may be unset. */
  datatype MultipleQuery = MultipleQuery(id: int, query: Option<string>, parameters: ParamArray, queryType: Option<QueryType>)

  predicate HasQuery(item: MultipleQuery)
  {
    item.query.Some? && item.query.value != ""
  }

  /** Parameters are demanded only of a query text containing `@`; then they must be present, non-empty and without nulls. */
  predicate ParametersSupplied(item: MultipleQuery)
    requires HasQuery(item)
  {
    !ContainsChar(item.query.value, '@')
    || (item.parameters.Some? && item.parameters.value != [] && ParameterBinder.NoNulls(item.parameters.value))
  }

  /**
   * The checks made on an item just before it runs, in the order they are
   * made; `taken` is the set of ids already holding a result. The first
   * check that fails names the exception.
   */
  function Validate(item: MultipleQuery, taken: set<int>): (r: Option<Error>)
    ensures r.None? ==> HasQuery(item) && item.id != 0 && item.queryType.Some? && item.id !in taken
    ensures r.Some? ==> r.value.MissingField? || r.value == DuplicateKey(item.id)
  {
    if item.query.None? || item.query.value == "" then Some(MissingField(QueryField))
    else if item.id == 0 then Some(MissingField(IdField))
    else if ContainsChar(item.query.value, '@') && (item.parameters.None? || item.parameters.value == []) then
      Some(MissingField(ParametersField))
    else if ContainsChar(item.query.value, '@') && !ParameterBinder.NoNulls(item.parameters.value) then
      Some(MissingField(NonNullParameters))
    else if item.queryType.None? then Some(MissingField(QueryTypeField))
    else if item.id in taken then Some(DuplicateKey(item.id))
    else None
  }

  /**
   * Each exception is raised exactly when every earlier check passed and its
   * own check fails; an item is accepted iff all six checks pass. Only a
   * zero id is refused: a negative id is accepted.
   */
  lemma ValidationOrder(item: MultipleQuery, taken: set<int>)
    ensures Validate(item, taken) == Some(MissingField(QueryField)) <==> !HasQuery(item)
    ensures Validate(item, taken) == Some(MissingField(IdField)) <==> HasQuery(item) && item.id == 0
    ensures Validate(item, taken) == Some(MissingField(ParametersField)) <==>
      HasQuery(item) && item.id != 0 && ContainsChar(item.query.value, '@')
      && (item.parameters.None? || item.parameters.value == [])
    ensures Validate(item, taken) == Some(MissingField(NonNullParameters)) <==>
      HasQuery(item) && item.id != 0 && ContainsChar(item.query.value, '@')
      && item.parameters.Some? && item.parameters.value != [] && !ParameterBinder.NoNulls(item.parameters.value)
    ensures Validate(item, taken) == Some(MissingField(QueryTypeField)) <==>
      HasQuery(item) && item.id != 0 && ParametersSupplied(item) && item.queryType.None?
    ensures Validate(item, taken) == Some(DuplicateKey(item.id)) <==>
      HasQuery(item) && item.id != 0 && ParametersSupplied(item) && item.queryType.Some? && item.id in taken
    ensures Validate(item, taken) == None <==>
      HasQuery(item) && item.id != 0 && ParametersSupplied(item) && item.queryType.Some? && item.id !in taken
  {
  }

  /** A query without `@` needs no parameters at all, even null ones pass. */
  lemma NoPlaceholderNeedsNoParameters(item: MultipleQuery, taken: set<int>)
    requires HasQuery(item) && !ContainsChar(item.query.value, '@')
    requires item.id != 0 && item.queryType.Some? && item.id !in taken
    ensures Validate(item, taken) == None
  {
  }
}
