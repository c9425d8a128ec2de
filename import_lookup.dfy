/** The reads of stored records an import batch makes: the `where` filter built from the
    distinct values of a column (`getWhere`), the paginated reads of the relation targets
    (`getRelationLookupData`) and of the records that may be updated, and the filter of the
    1.0 action, which lists every line's value. The data source enters the model as a function
    from a query to its page oracle. */
module ImportLookup {
  import opened Wrappers
  import opened Text
  import opened Js
  import opened Queries
  import opened ImportRecords
  import opened Seqs

  // ---------------------------------------------------------------------------
  // The distinct values of a column
  // ---------------------------------------------------------------------------

  /** The cells of a column, one per line. */
  function Cells(lines: seq<Row>, column: string): (r: seq<Value>)
    ensures |r| == |lines| && forall i :: 0 <= i < |lines| ==> r[i] == Field(lines[i], column)
  {
    seq(|lines|, i requires 0 <= i < |lines| => Field(lines[i], column))
  }

  /** The `uniqueValues` list of `getWhere`: the truthy cells of the column in line order,
      each kept unless an equal one (in the sense of `includes`) came before. */
  function UniqueValues(lines: seq<Row>, column: string): (r: seq<Value>)
    ensures |r| <= |lines|
    decreases |lines|
  {
    if lines == [] then []
    else
      var prev := UniqueValues(lines[..|lines| - 1], column);
      var v := Field(lines[|lines| - 1], column);
      if Truthy(v) && !Includes(prev, v) then prev + [v] else prev
  }

  /** The distinct values are truthy cells of the column, every truthy cell is among them,
      and no two of them are equal in the sense of `includes`. */
  lemma {:induction false} UniqueValuesSpec(lines: seq<Row>, column: string)
    ensures var r := UniqueValues(lines, column);
            forall i :: 0 <= i < |r| ==> Truthy(r[i])
    ensures var r := UniqueValues(lines, column);
            forall i :: 0 <= i < |r| ==> r[i] in Cells(lines, column)
    ensures var r := UniqueValues(lines, column);
            forall j :: 0 <= j < |lines| && Truthy(Field(lines[j], column)) ==> Field(lines[j], column) in r
    ensures var r := UniqueValues(lines, column);
            forall i, k :: 0 <= i < k < |r| ==> !SameValueZero(r[i], r[k])
    decreases |lines|
  {
    if lines != [] {
      var init := lines[..|lines| - 1];
      UniqueValuesSpec(init, column);
      var prev := UniqueValues(init, column);
      var v := Field(lines[|lines| - 1], column);
      var cells := Cells(lines, column);
      assert Cells(init, column) == cells[..|lines| - 1];
      assert forall j :: 0 <= j < |init| ==> Field(init[j], column) == Field(lines[j], column);
      if Truthy(v) && !Includes(prev, v) {
        assert forall i :: 0 <= i < |prev| ==> !SameValueZero(prev[i], v);
      } else if Truthy(v) {
        var i :| 0 <= i < |prev| && SameValueZero(prev[i], v);
        SameValueZeroOfTruthy(prev[i], v);
      }
    }
  }

  /** On truthy values, `includes` finds only the value itself: objects are never equal to
      anything, and `NaN` is falsy. */
  lemma SameValueZeroOfTruthy(a: Value, b: Value)
    requires Truthy(b) && SameValueZero(a, b)
    ensures a == b
  {
  }

  /** When the truthy cells of a column are pairwise different, the distinct values are the
      cells themselves, in line order. */
  lemma {:induction false} UniqueValuesOfDistinct(lines: seq<Row>, column: string)
    requires forall j :: 0 <= j < |lines| ==> Truthy(Field(lines[j], column))
    requires forall i, j :: 0 <= i < j < |lines| ==> !SameValueZero(Field(lines[i], column), Field(lines[j], column))
    ensures UniqueValues(lines, column) == Cells(lines, column)
    decreases |lines|
  {
    if lines != [] {
      var init := lines[..|lines| - 1];
      assert forall j :: 0 <= j < |init| ==> init[j] == lines[j];
      UniqueValuesOfDistinct(init, column);
      var prev := Cells(init, column);
      var v := Field(lines[|lines| - 1], column);
      assert !Includes(prev, v);
      assert Cells(lines, column) == prev + [v];
    }
  }

  // ---------------------------------------------------------------------------
  // The filter text
  // ---------------------------------------------------------------------------

  /** The spacing of the filter text: version 3.2, or versions 2.1 and 2.2. */
  datatype Style = Current | Earlier

  /** The texts a template literal writes for the values. */
  function Texts(items: seq<Value>): (r: seq<string>)
    ensures |r| == |items| && forall i :: 0 <= i < |items| ==> r[i] == ToStr(items[i])
  {
    seq(|items|, i requires 0 <= i < |items| => ToStr(items[i]))
  }

  /** One clause of the `_or` form: the property equals the text of the value. */
  function EqClause(text: string, db: string, style: Style): string {
    if style.Current? then "{ " + db + ": { eq: \"" + text + "\" }},"
    else "{" + db + " : {eq:\"" + text + "\"}},"
  }

  /** One element of the `in` list: the text of the value in double quotes. */
  function InItem(text: string): string {
    "\"" + text + "\","
  }

  /** The element of the filter that stands for one value. */
  function Item(text: string, db: string, isDecimal: bool, style: Style): string {
    if isDecimal then EqClause(text, db, style) else InItem(text)
  }

  /** The elements of the values, in order, as `forEach` appends them. */
  function Clauses(texts: seq<string>, db: string, isDecimal: bool, style: Style): string
    decreases |texts|
  {
    if texts == [] then ""
    else Clauses(texts[..|texts| - 1], db, isDecimal, style) + Item(texts[|texts| - 1], db, isDecimal, style)
  }

  /** The filter on values of the given texts: an `_or` of `eq` clauses for a decimal
      property, else one `in` list. */
  function Where(texts: seq<string>, db: string, isDecimal: bool, style: Style): string {
    Opening(db, isDecimal) + Clauses(texts, db, isDecimal, style) + Closing(isDecimal, style)
  }

  function Opening(db: string, isDecimal: bool): string {
    if isDecimal then "{ _or: [" else "{ " + db + ": { in: ["
  }

  function Closing(isDecimal: bool, style: Style): string {
    if isDecimal then (if style.Current? then "] }" else "]}") else (if style.Current? then "] }}" else "]}}")
  }

  /** The filter on the given values. */
  function WhereText(items: seq<Value>, db: string, isDecimal: bool, style: Style): string {
    Where(Texts(items), db, isDecimal, style)
  }

  /** `getWhere(lines, column, db, isDecimal)`: one pass collecting the distinct truthy cells,
      a second writing their clauses. */
  method GetWhere(lines: seq<Row>, column: string, db: string, isDecimal: bool, style: Style) returns (w: string)
    ensures w == WhereText(UniqueValues(lines, column), db, isDecimal, style)
  {
    var unique := CollectUnique(lines, column);
    var data := WriteClauses(unique, db, isDecimal, style);
    w := Opening(db, isDecimal) + data + Closing(isDecimal, style);
  }

  /** The first loop of `getWhere`: each truthy cell not yet collected is appended. */
  method CollectUnique(lines: seq<Row>, column: string) returns (unique: seq<Value>)
    ensures unique == UniqueValues(lines, column)
  {
    unique := [];
    var i := 0;
    while i < |lines|
      invariant 0 <= i <= |lines|
      invariant unique == UniqueValues(lines[..i], column)
    {
      var v := Field(lines[i], column);
      assert lines[..i + 1][..i] == lines[..i];
      if Truthy(v) && !Includes(unique, v) {
        unique := unique + [v];
      }
      i := i + 1;
    }
    assert lines[..|lines|] == lines;
  }

  /** The second loop of `getWhere`: the element of each value, appended in order. */
  method WriteClauses(unique: seq<Value>, db: string, isDecimal: bool, style: Style) returns (data: string)
    ensures data == Clauses(Texts(unique), db, isDecimal, style)
  {
    data := "";
    var k := 0;
    while k < |unique|
      invariant 0 <= k <= |unique|
      invariant data == Clauses(Texts(unique[..k]), db, isDecimal, style)
    {
      ClausesSnoc(unique, k, db, isDecimal, style);
      if isDecimal {
        data := data + EqClause(ToStr(unique[k]), db, style);
      } else {
        data := data + InItem(ToStr(unique[k]));
      }
      k := k + 1;
    }
    assert unique[..|unique|] == unique;
  }

  /** One more value appends its element. */
  lemma ClausesSnoc(items: seq<Value>, k: nat, db: string, isDecimal: bool, style: Style)
    requires k < |items|
    ensures Clauses(Texts(items[..k + 1]), db, isDecimal, style) ==
            Clauses(Texts(items[..k]), db, isDecimal, style) + Item(ToStr(items[k]), db, isDecimal, style)
  {
    assert Texts(items[..k + 1])[..k] == Texts(items[..k]);
  }

  /** A text occurs in any text that has it as a part. */
  lemma ContainsPart(a: string, b: string, c: string)
    ensures Contains(a + b + c, b)
  {
    var s := a + b + c;
    assert s[|a|..|a| + |b|] == b;
    assert OccursAt(s, b, |a|);
    IndexOfSpec(s, b);
  }

  /** The elements of a list of texts hold the element of each text. */
  lemma {:induction false} ClausesSplit(texts: seq<string>, db: string, isDecimal: bool, style: Style, i: nat)
    returns (before: string, after: string)
    requires i < |texts|
    ensures Clauses(texts, db, isDecimal, style) == before + Item(texts[i], db, isDecimal, style) + after
    decreases |texts|
  {
    var init := texts[..|texts| - 1];
    var last := Item(texts[|texts| - 1], db, isDecimal, style);
    if i == |texts| - 1 {
      before, after := Clauses(init, db, isDecimal, style), "";
    } else {
      var a, c := ClausesSplit(init, db, isDecimal, style, i);
      assert init[i] == texts[i];
      Regroup(a + Item(texts[i], db, isDecimal, style), c, last);
      before, after := a, c + last;
    }
  }

  /** The filter holds the element of each of its texts. */
  lemma WhereHoldsItem(texts: seq<string>, db: string, isDecimal: bool, style: Style, i: nat)
    requires i < |texts|
    ensures Contains(Where(texts, db, isDecimal, style), Item(texts[i], db, isDecimal, style))
  {
    var x := Item(texts[i], db, isDecimal, style);
    var a, c := ClausesSplit(texts, db, isDecimal, style, i);
    var head, tail := Opening(db, isDecimal), Closing(isDecimal, style);
    assert Where(texts, db, isDecimal, style) == head + (a + x + c) + tail;
    assert head + (a + x + c) + tail == (head + a) + x + (c + tail);
    ContainsPart(head + a, x, c + tail);
  }

  /** Every truthy cell of the column is searched for: the filter holds its element. */
  lemma WhereListsEveryValue(lines: seq<Row>, column: string, db: string, isDecimal: bool, style: Style, j: nat)
    requires j < |lines| && Truthy(Field(lines[j], column))
    ensures Contains(WhereText(UniqueValues(lines, column), db, isDecimal, style),
                     Item(ToStr(Field(lines[j], column)), db, isDecimal, style))
  {
    var items := UniqueValues(lines, column);
    UniqueValuesSpec(lines, column);
    var i :| 0 <= i < |items| && items[i] == Field(lines[j], column);
    WhereHoldsItem(Texts(items), db, isDecimal, style, i);
  }

  // ---------------------------------------------------------------------------
  // The filter of the 1.0 action
  // ---------------------------------------------------------------------------

  /** The 1.0 filter on the stored records: the text of every line's unique cell, duplicates,
      empty and missing cells included, in one `in` list. */
  function WhereOfAllLines(lines: seq<Row>, column: string, db: string): string {
    WhereText(Cells(lines, column), db, false, Earlier)
  }

  /** The 1.0 loop over the lines, appending one element per line. */
  method WhereOfAllLinesLoop(lines: seq<Row>, column: string, db: string) returns (w: string)
    ensures w == WhereOfAllLines(lines, column, db)
  {
    var data := "";
    var i := 0;
    while i < |lines|
      invariant 0 <= i <= |lines|
      invariant data == Clauses(Texts(Cells(lines[..i], column)), db, false, Earlier)
    {
      assert Texts(Cells(lines[..i + 1], column))[..i] == Texts(Cells(lines[..i], column));
      data := data + InItem(ToStr(Field(lines[i], column)));
      i := i + 1;
    }
    assert lines[..|lines|] == lines;
    w := Opening(db, false) + data + Closing(false, Earlier);
  }

  /** Every line's cell is listed by the 1.0 filter, whatever its value. */
  lemma WhereOfAllLinesListsEveryLine(lines: seq<Row>, column: string, db: string, j: nat)
    requires j < |lines|
    ensures Contains(WhereOfAllLines(lines, column, db), InItem(ToStr(Field(lines[j], column))))
  {
    WhereHoldsItem(Texts(Cells(lines, column)), db, false, Earlier, j);
  }

  /** When the cells are truthy and pairwise different, the 1.0 filter is the `in` filter of
      the 2.x actions. */
  lemma WhereOfAllLinesAgrees(lines: seq<Row>, column: string, db: string)
    requires forall j :: 0 <= j < |lines| ==> Truthy(Field(lines[j], column))
    requires forall i, j :: 0 <= i < j < |lines| ==> !SameValueZero(Field(lines[i], column), Field(lines[j], column))
    ensures WhereOfAllLines(lines, column, db) == WhereText(UniqueValues(lines, column), db, false, Earlier)
  {
    UniqueValuesOfDistinct(lines, column);
  }

  // ---------------------------------------------------------------------------
  // Reading stored records
  // ---------------------------------------------------------------------------

  /** A filter on the values of a property: an `_or` of `eq` clauses for a decimal property,
      else an `in` list. Its text is `WhereText(values, db, isDecimal, style)`. */
  datatype Filter = Filter(db: string, isDecimal: bool, values: seq<Value>)

  /** A read of the data source: the model, the filter and the properties asked for. The
      data source is given the filter itself rather than its text. */
  datatype Query = Query(model: string, where: Filter, fields: seq<string>)

  /** The data source: the page oracle of each query. */
  type Source = Query -> (int, int) -> Response

  /** A complete read of a query: its records, or the abort of the read. */
  type Reader = Query -> Result<seq<Value>>

  /** The page size of every read. */
  const PageSize := 200

  /** The reads of the actions (`getAll`, `getAllRecords`): every query paginated from offset
      0 in pages of 200; `tooLarge` is the version's abort message. */
  function Paginated(source: Source, tooLarge: string): Reader {
    q => AllRecords(source(q), 0, PageSize, [], tooLarge)
  }

  /** A paginated read of a data source that holds `rows` for the query gives all of them. */
  lemma PaginatedReadsAll(source: Source, tooLarge: string, q: Query, rows: seq<Value>)
    requires |rows| <= Ceiling
    requires forall s: nat, t: nat :: t > 0 ==> source(q)(s, t) == Page(Window(rows, s, t), |rows|)
    ensures Paginated(source, tooLarge)(q) == Ok(rows)
  {
    AllRecordsReadsAll(source(q), rows, PageSize, tooLarge);
  }

  /** The lookup list of one relation mapping: the column it comes from (`relationImportName`
      of the item), the mapping's own `relationImportName`, which the compile set to that same
      column (`relationDBName` of the item), and the target records read. */
  datatype LookupItem = LookupItem(importName: string, dbName: string, records: seq<Value>)

  /** The relation mappings among compiled mappings, in order. */
  function Relations(ms: seq<Option<Mapping>>): (r: seq<Mapping>)
    ensures |r| <= |ms|
    ensures forall i :: 0 <= i < |r| ==> r[i].relation.Some?
  {
    if ms == [] then []
    else
      var rest := Relations(ms[1..]);
      if ms[0].Some? && ms[0].value.relation.Some? then [ms[0].value] + rest else rest
  }

  /** The read of the targets of one relation mapping: those whose searched property takes
      one of the column's distinct values, with their ids. */
  function RelationQuery(m: Mapping, lines: seq<Row>): Query
    requires m.relation.Some?
  {
    var isDecimal := m.relation.value.propertyType == Some("decimal");
    Query(m.relation.value.modelName, Filter(m.value, isDecimal, UniqueValues(lines, m.key)), ["id", m.value])
  }

  /** The lookup list of one relation mapping, or the failure of its read. */
  function Lookup(m: Mapping, lines: seq<Row>, read: Reader): (r: Result<LookupItem>)
    requires m.relation.Some?
    ensures r.Ok? <==> read(RelationQuery(m, lines)).Ok?
    ensures r.Ok? ==> r.value == LookupItem(m.key, m.relation.value.importName, read(RelationQuery(m, lines)).value)
  {
    var records :- read(RelationQuery(m, lines));
    Ok(LookupItem(m.key, m.relation.value.importName, records))
  }

  /** `getRelationLookupData(main, update, lines)` over `main.concat(update)`: one lookup list
      per relation mapping in order, or the first failure. A mapping the compile dropped
      (`undefined`) fails when its `isRelation` is read. */
  function LookupData(ms: seq<Option<Mapping>>, lines: seq<Row>, read: Reader): Result<seq<LookupItem>> {
    if ms == [] then Ok([])
    else if ms[0].None? then Err(ReadError(Undef, "isRelation"))
    else
      var m := ms[0].value;
      var head :- if m.relation.Some? then (var item :- Lookup(m, lines, read); Ok([item])) else Ok([]);
      var rest :- LookupData(ms[1..], lines, read);
      Ok(head + rest)
  }

  /** The lookup lists follow the relation mappings one to one and in order, each holding the
      targets its query reads. */
  lemma {:induction false} LookupDataSpec(ms: seq<Option<Mapping>>, lines: seq<Row>, read: Reader)
    ensures var r := LookupData(ms, lines, read);
            r.Ok? ==> |r.value| == |Relations(ms)| &&
                      forall i :: 0 <= i < |r.value| ==> Lookup(Relations(ms)[i], lines, read) == Ok(r.value[i])
    decreases |ms|
  {
    if ms != [] && ms[0].Some? {
      LookupDataSpec(ms[1..], lines, read);
    }
  }

  /** A mapping the compile dropped, anywhere in the list, fails the lookup. */
  lemma {:induction false} LookupDataOfDropped(ms: seq<Option<Mapping>>, lines: seq<Row>, read: Reader,
                                               k: nat)
    requires k < |ms| && ms[k].None?
    ensures LookupData(ms, lines, read) == Err(ReadError(Undef, "isRelation")) ||
            exists i :: 0 <= i < k && ms[i].Some? && ms[i].value.relation.Some? &&
                        read(RelationQuery(ms[i].value, lines)).Err?
    decreases k
  {
    if k > 0 && ms[0].Some? {
      LookupDataOfDropped(ms[1..], lines, read, k - 1);
      assert forall i :: 1 <= i < |ms| ==> ms[i] == ms[1..][i - 1];
    }
  }

  /** The loop of `getRelationLookupData`, one awaited read per relation mapping. */
  method GetRelationLookupData(ms: seq<Option<Mapping>>, lines: seq<Row>, read: Reader)
    returns (r: Result<seq<LookupItem>>)
    ensures r == LookupData(ms, lines, read)
  {
    var items: seq<LookupItem> := [];
    var i := 0;
    var all := LookupData(ms, lines, read);
    assert ms[0..] == ms;
    if all.Ok? {
      assert [] + all.value == all.value;
    }
    while i < |ms|
      invariant 0 <= i <= |ms|
      invariant LookupData(ms, lines, read) == LookupPrepend(items, LookupData(ms[i..], lines, read))
    {
      assert ms[i..][1..] == ms[i + 1..];
      if ms[i].None? {
        return Err(ReadError(Undef, "isRelation"));
      }
      var m := ms[i].value;
      if m.relation.Some? {
        var item := Lookup(m, lines, read);
        if item.Err? {
          return Err(item.message);
        }
        var rest := LookupData(ms[i + 1..], lines, read);
        if rest.Ok? {
          assert items + ([item.value] + rest.value) == (items + [item.value]) + rest.value;
        }
        items := items + [item.value];
      } else {
        var rest := LookupData(ms[i + 1..], lines, read);
        if rest.Ok? {
          assert [] + rest.value == rest.value;
        }
      }
      i := i + 1;
    }
    assert items + [] == items;
    r := Ok(items);
  }

  /** The lookup lists already built, in front of the result of the remaining mappings. */
  function LookupPrepend(items: seq<LookupItem>, r: Result<seq<LookupItem>>): Result<seq<LookupItem>> {
    if r.Ok? then Ok(items + r.value) else r
  }
}
