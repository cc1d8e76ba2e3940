/**
 * Worked batches: an invalid item after a valid one, an item of unknown
 * kind, a repeated id, a negative id, and the drained and unenumerated
 * variants parting ways on a many-rows item.
 */
module BatchExamples {
  import opened Common
  import opened Data
  import opened ParameterBinder
  import opened Batch
  import opened Database

  const Select: string := "select 1"

  lemma SelectHasNoPlaceholder()
    ensures !ContainsChar(Select, '@')
  {
    assert forall i :: 0 <= i < |Select| ==> Select[i] != '@';
  }

  function ScalarItem(id: int): MultipleQuery
  {
    MultipleQuery(id, Some(Select), None, Some(ExecuteScalar))
  }

  /** Item 1 has run, and its statement stays sent, when item 2 is found to have no query. */
  lemma InvalidItemAfterValidOne(p: Provider, h: seq<Execution>)
    requires p.scalar(h, Command(Select, [])).Ok?
    ensures BatchSpec([ScalarItem(1), MultipleQuery(2, None, None, Some(ExecuteScalar))], true, false, true, h, p)
         == Outcome(Failure(MissingField(QueryField)), h + [Execution(ScalarKind, Command(Select, []))])
  {
    var items := [ScalarItem(1), MultipleQuery(2, None, None, Some(ExecuteScalar))];
    SelectHasNoPlaceholder();
    assert BindParameters(Select, None) == Ok([]);
    var h1 := h + [Execution(ScalarKind, Command(Select, []))];
    var v := p.scalar(h, Command(Select, [])).value;
    assert items[..1] == [ScalarItem(1)];
    assert items[..1][..0] == [];
    assert ScalarSpec(true, h, p, Select, None) == Outcome(Ok(v), h1);
    assert RunItem(ScalarItem(1), {}, true, false, true, h, p) == Outcome(Ok(ScalarValue(v)), h1);
    assert BatchSpec([ScalarItem(1)], true, false, true, h, p) == Outcome(Ok(map[1 := ScalarValue(v)]), h1);
  }

  /** A repeated id is refused once the first item holding it has run. */
  lemma RepeatedIdRefused(p: Provider, h: seq<Execution>)
    requires p.scalar(h, Command(Select, [])).Ok?
    ensures BatchSpec([ScalarItem(7), ScalarItem(7)], true, false, true, h, p)
         == Outcome(Failure(DuplicateKey(7)), h + [Execution(ScalarKind, Command(Select, []))])
  {
    var items := [ScalarItem(7), ScalarItem(7)];
    SelectHasNoPlaceholder();
    assert BindParameters(Select, None) == Ok([]);
    var h1 := h + [Execution(ScalarKind, Command(Select, []))];
    var v := p.scalar(h, Command(Select, [])).value;
    assert items[..1] == [ScalarItem(7)];
    assert items[..1][..0] == [];
    assert ScalarSpec(true, h, p, Select, None) == Outcome(Ok(v), h1);
    assert RunItem(ScalarItem(7), {}, true, false, true, h, p) == Outcome(Ok(ScalarValue(v)), h1);
    assert BatchSpec([ScalarItem(7)], true, false, true, h, p) == Outcome(Ok(map[7 := ScalarValue(v)]), h1);
    assert map[7 := ScalarValue(v)].Keys == {7};
  }

  /** An accepted item of an unknown kind throws once the items before it have run, and sends nothing itself. */
  lemma UnknownQueryTypeAfterValidOne(p: Provider, h: seq<Execution>)
    requires p.scalar(h, Command(Select, [])).Ok?
    ensures BatchSpec([ScalarItem(1), MultipleQuery(2, Some(Select), None, Some(Undefined(7)))], true, false, true, h, p)
         == Outcome(Failure(UnsupportedQueryType), h + [Execution(ScalarKind, Command(Select, []))])
  {
    var items := [ScalarItem(1), MultipleQuery(2, Some(Select), None, Some(Undefined(7)))];
    SelectHasNoPlaceholder();
    assert BindParameters(Select, None) == Ok([]);
    var h1 := h + [Execution(ScalarKind, Command(Select, []))];
    var v := p.scalar(h, Command(Select, [])).value;
    assert items[..1] == [ScalarItem(1)];
    assert items[..1][..0] == [];
    assert ScalarSpec(true, h, p, Select, None) == Outcome(Ok(v), h1);
    assert RunItem(ScalarItem(1), {}, true, false, true, h, p) == Outcome(Ok(ScalarValue(v)), h1);
    assert BatchSpec([ScalarItem(1)], true, false, true, h, p) == Outcome(Ok(map[1 := ScalarValue(v)]), h1);
    assert map[1 := ScalarValue(v)].Keys == {1};
  }

  /** Although ids are documented as positive, only zero is refused. */
  lemma NegativeIdAccepted()
    ensures Validate(ScalarItem(-3), {}) == None
    ensures Validate(ScalarItem(0), {}) == Some(MissingField(IdField))
  {
    SelectHasNoPlaceholder();
  }

  /**
   * A many-rows item whose text has no `@` but whose parameter array holds a
   * null passes the checks. Drained, binding it throws before anything is
   * sent; unenumerated, it is stored as is and nothing is sent either.
   */
  lemma DrainedAndDeferredPartWays(p: Provider, h: seq<Execution>)
    ensures var item := MultipleQuery(3, Some(Select), Some([None]), Some(ExecuteMany));
      BatchSpec([item], true, false, true, h, p) == Outcome(Failure(NullParameter), h)
      && BatchSpec([item], false, false, true, h, p) == Outcome(Ok(map[3 := DeferredRows(Select, Some([None]))]), h)
  {
    var item := MultipleQuery(3, Some(Select), Some([None]), Some(ExecuteMany));
    SelectHasNoPlaceholder();
    assert Validate(item, {}) == None;
    var arr: seq<Option<Param>> := [None];
    assert arr[0].None?;
    assert BindParameters(Select, Some([None])) == Failure(NullParameter);
    assert [item][..0] == [];
  }
}
