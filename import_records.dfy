/** The records of the import actions: import lines, the three kinds of mapping the action is
    configured with, how a mapped cell is read, how an import line is matched against the
    records already stored, and how each line is classified as a create, an update or a skip.
    Versions 3.2, 2.2, 2.1 and 1.0 share this part. */
module ImportRecords {
  import opened Wrappers
  import opened Text
  import opened Js

  /** An import line: the cells of one row of the file, by column name. */
  type Row = map<string, Value>

  /** A relation target: the model to search (`relationModelName`), the field of the record
      that holds the relation (`relationName`), the column it comes from (`relationImportName`,
      `relationCSVName` in 2.x) and the declared type of the searched property. */
  datatype Relation = Relation(modelName: string, name: string, importName: string, propertyType: Option<string>)

  /** A property mapping `{key, value}`: the column `key` goes to the property `value`.
      `relation` is set when the mapping was compiled as a relation (`isRelation`). */
  datatype Mapping = Mapping(key: string, value: string, relation: Option<Relation>)

  /** A format mapping `{key, value}`: the column `key` is of the type `value`. */
  datatype FormatMapping = FormatMapping(key: string, value: string)

  /** A default mapping `{key, value}`: the property `key` gets the constant `value`. */
  datatype DefaultMapping = DefaultMapping(key: string, value: Value)

  // ---------------------------------------------------------------------------
  // Reading a mapped cell
  // ---------------------------------------------------------------------------

  /** A key that ends in `*` marks a required column. */
  predicate Starred(key: string) {
    key != [] && key[|key| - 1] == '*'
  }

  function Unstarred(key: string): (r: string)
    requires Starred(key)
    ensures r + "*" == key
  {
    key[..|key| - 1]
  }

  /** The 3.2 read of a mapped cell: for a starred key, the starred column, or the column
      without the star when that cell is falsy. */
  function ReadCellAsWritten(line: Row, key: string): Value {
    if Starred(key) then
      var v := Field(line, key);
      if Truthy(v) then v else Field(line, Unstarred(key))
    else Field(line, key)
  }

  /** The read the record building of 3.2 needs: as written, except that a boolean stored
      under the starred key (the checkbox format's `false`) is read back rather than passed
      over for the column without the star. */
  function ReadCell(line: Row, key: string): Value {
    if Starred(key) then
      var v := Field(line, key);
      if Truthy(v) || v.Bool? then v else Field(line, Unstarred(key))
    else Field(line, key)
  }

  /** As written, a falsy value stored under a starred key is not read back: the read goes to
      the column without the star. */
  lemma FalsyCellFallsBack(line: Row, key: string, w: Value)
    requires Starred(key) && !Truthy(w)
    ensures ReadCellAsWritten(line[key := w], key) == Field(line, Unstarred(key))
  {
    assert Unstarred(key) != key;
  }

  /** A truthy value or a boolean stored under a key is read back, and the written read
      agrees on truthy cells. */
  lemma ReadCellReadsBack(line: Row, key: string, w: Value)
    requires Truthy(w) || w.Bool?
    ensures ReadCell(line[key := w], key) == w
    ensures Truthy(w) ==> ReadCellAsWritten(line[key := w], key) == w
  {
  }

  /** The corrected read differs from the written one only on a stored `false`: every other
      cell, including a blank starred cell, is read exactly as written. */
  lemma ReadCellAsWrittenElsewhere(line: Row, key: string)
    requires Field(line, key) != Bool(false)
    ensures ReadCell(line, key) == ReadCellAsWritten(line, key)
  {
  }

  /** Both reads give the unstarred column when the starred one is absent. */
  lemma ReadCellOfUnstarredColumn(line: Row, key: string)
    requires Starred(key) && key !in line
    ensures ReadCell(line, key) == Field(line, Unstarred(key))
    ensures ReadCellAsWritten(line, key) == Field(line, Unstarred(key))
  {
  }

  // ---------------------------------------------------------------------------
  // The unique identifier
  // ---------------------------------------------------------------------------

  /** A mapping names the unique column when their keys agree after lower-casing and trimming. */
  predicate NamesColumn(m: Mapping, column: string) {
    Trim(ToLower(m.key)) == Trim(ToLower(column))
  }

  /** `propertyMappings.find(...)` from position `i` on: the position of the first mapping that
      names the unique column. */
  function FindUniqueFrom(mappings: seq<Mapping>, column: string, i: nat): (r: Option<nat>)
    requires i <= |mappings|
    ensures r.Some? ==> i <= r.value < |mappings| && NamesColumn(mappings[r.value], column)
    ensures r.Some? ==> forall j {:trigger NamesColumn(mappings[j], column)} :: i <= j < r.value ==> !NamesColumn(mappings[j], column)
    ensures r.None? ==> forall j {:trigger NamesColumn(mappings[j], column)} :: i <= j < |mappings| ==> !NamesColumn(mappings[j], column)
    decreases |mappings| - i
  {
    if i == |mappings| then None
    else if NamesColumn(mappings[i], column) then Some(i)
    else
      var r := FindUniqueFrom(mappings, column, i + 1);
      // Each position before the one found is `i` itself or one the recursive call covers.
      assert r.Some? ==> forall j {:trigger NamesColumn(mappings[j], column)} :: i <= j < r.value ==> j == i || i + 1 <= j;
      r
  }

  /** The unique identifier: the first mapping that names the unique column, if any. */
  function FindUniqueIdentifier(mappings: seq<Mapping>, column: string): (r: Option<Mapping>)
    ensures r.Some? ==> exists i :: 0 <= i < |mappings| && mappings[i] == r.value && NamesColumn(r.value, column) &&
                          forall j :: 0 <= j < i ==> !NamesColumn(mappings[j], column)
    ensures r.None? ==> forall i :: 0 <= i < |mappings| ==> !NamesColumn(mappings[i], column)
  {
    match FindUniqueFrom(mappings, column, 0)
    case None => None
    case Some(i) => Some(mappings[i])
  }

  // ---------------------------------------------------------------------------
  // Matching against existing records
  // ---------------------------------------------------------------------------

  /** The text `toString` gives for the value of property `prop` of a stored record, or `None`
      when reading it throws (the record or the property is `undefined`/`null`). */
  function RecordKey(record: Value, prop: string): Option<string> {
    match GetProp(record, prop)
    case Ok(v) => if IsNullish(v) then None else Some(ToStr(v))
    case Err(_) => None
  }

  /** A stored record matches an import line when the texts of the record's unique property
      and of the line's unique cell are the same. */
  predicate Matches(record: Value, uid: Mapping, line: Row) {
    !IsNullish(Field(line, uid.key)) && RecordKey(record, uid.value) == Some(ToStr(Field(line, uid.key)))
  }

  /** `existingRecords.find(record => record[uid.value].toString() === line[uid.key].toString())`:
      the first match, or an error as soon as a `toString` is called on `undefined`/`null` or
      the identifier itself is `undefined`. */
  function FindExisting(existing: seq<Value>, uid: Option<Mapping>, line: Row): (r: Result<Option<Value>>)
    ensures r.Ok? && r.value.Some? ==> uid.Some?
    ensures r.Ok? && r.value.Some? ==>
              exists i :: 0 <= i < |existing| && existing[i] == r.value.value && Matches(existing[i], uid.value, line) &&
                          forall j :: 0 <= j < i ==> !Matches(existing[j], uid.value, line)
    ensures r.Ok? && r.value.None? ==> forall i :: 0 <= i < |existing| ==> uid.Some? && !Matches(existing[i], uid.value, line)
    ensures existing == [] ==> r == Ok(None)
  {
    if existing == [] then Ok(None)
    else
      var u :- if uid.Some? then Ok(uid.value) else Err(ReadError(Undef, "value"));
      var a :- GetProp(existing[0], u.value);
      var b := Field(line, u.key);
      if IsNullish(a) then Err(ReadError(a, "toString"))
      else if IsNullish(b) then Err(ReadError(b, "toString"))
      else if ToStr(a) == ToStr(b) then Ok(Some(existing[0]))
      else
        var r := FindExisting(existing[1..], uid, line);
        assert forall i :: 1 <= i < |existing| ==> existing[i] == existing[1..][i - 1];
        r
  }

  // ---------------------------------------------------------------------------
  // Classification
  // ---------------------------------------------------------------------------

  /** What becomes of one import line. */
  datatype Outcome = Create(record: Row) | Update(record: Row) | Skip

  /** The deduplication settings of a run: the flag, the unique column, the mapping found for
      it, the stored records read for the batch and whether update mappings exist. */
  datatype Dedup = Dedup(deduplicate: bool, uniqueColumn: string, uid: Option<Mapping>,
                         existing: seq<Value>, hasUpdateMappings: bool)

  /** The classification of one import line, given the objects built for it: without
      deduplication every line is created; with it, a line whose unique cell is `''` is
      skipped, a line matching a stored record updates it (with the update object when update
      mappings exist, else the create object, carrying the stored id), and any other line is
      created. */
  function Classify(line: Row, importObj: Row, updateObj: Row, d: Dedup): (r: Result<Outcome>)
    ensures !d.deduplicate ==> r == Ok(Create(importObj))
    ensures d.deduplicate && Field(line, d.uniqueColumn) == Str("") ==> r == Ok(Skip)
    ensures r.Ok? && r.value.Update? ==>
              d.deduplicate && Field(line, d.uniqueColumn) != Str("") && d.uid.Some? &&
              (exists i :: 0 <= i < |d.existing| && Matches(d.existing[i], d.uid.value, line) &&
                 r.value.record == (if d.hasUpdateMappings then updateObj else importObj)["id" := GetProp(d.existing[i], "id").value])
    ensures r.Ok? && r.value.Create? && d.deduplicate ==>
              r.value.record == importObj &&
              forall i :: 0 <= i < |d.existing| ==> d.uid.Some? && !Matches(d.existing[i], d.uid.value, line)
  {
    if !d.deduplicate then Ok(Create(importObj))
    else if StrictEq(Field(line, d.uniqueColumn), Str("")) then Ok(Skip)
    else
      var found :- FindExisting(d.existing, d.uid, line);
      match found
      case None => Ok(Create(importObj))
      case Some(record) =>
        var id :- GetProp(record, "id");
        Ok(Update((if d.hasUpdateMappings then updateObj else importObj)["id" := id]))
  }

  /** The creates and the updates of a list of outcomes, in line order. */
  function Creates(outcomes: seq<Outcome>): (r: seq<Row>)
    ensures |r| <= |outcomes|
  {
    if outcomes == [] then []
    else (if outcomes[0].Create? then [outcomes[0].record] else []) + Creates(outcomes[1..])
  }

  function Updates(outcomes: seq<Outcome>): (r: seq<Row>)
    ensures |r| <= |outcomes|
  {
    if outcomes == [] then []
    else (if outcomes[0].Update? then [outcomes[0].record] else []) + Updates(outcomes[1..])
  }

  function Skips(outcomes: seq<Outcome>): nat {
    if outcomes == [] then 0 else (if outcomes[0].Skip? then 1 else 0) + Skips(outcomes[1..])
  }

  /** Every line is created, updated or skipped, exactly once. */
  lemma {:induction false} OutcomesPartition(outcomes: seq<Outcome>)
    ensures |Creates(outcomes)| + |Updates(outcomes)| + Skips(outcomes) == |outcomes|
  {
    if outcomes != [] {
      OutcomesPartition(outcomes[1..]);
    }
  }

  /** Creates and updates of consecutive lines follow each other. */
  lemma {:induction false} CreatesAppend(a: seq<Outcome>, b: seq<Outcome>)
    ensures Creates(a + b) == Creates(a) + Creates(b)
  {
    if a == [] {
      assert a + b == b;
    } else {
      var head := if a[0].Create? then [a[0].record] else [];
      CreatesAppend(a[1..], b);
      assert (a + b)[0] == a[0];
      assert (a + b)[1..] == a[1..] + b;
      assert Creates(a + b) == head + Creates(a[1..] + b);
      assert head + (Creates(a[1..]) + Creates(b)) == (head + Creates(a[1..])) + Creates(b);
    }
  }

  lemma {:induction false} UpdatesAppend(a: seq<Outcome>, b: seq<Outcome>)
    ensures Updates(a + b) == Updates(a) + Updates(b)
  {
    if a == [] {
      assert a + b == b;
    } else {
      var head := if a[0].Update? then [a[0].record] else [];
      UpdatesAppend(a[1..], b);
      assert (a + b)[0] == a[0];
      assert (a + b)[1..] == a[1..] + b;
      assert Updates(a + b) == head + Updates(a[1..] + b);
      assert head + (Updates(a[1..]) + Updates(b)) == (head + Updates(a[1..])) + Updates(b);
    }
  }

  /** The createMany payload drops any `id` property of the create objects. */
  function StripId(record: Row): (r: Row)
    ensures "id" !in r
    ensures forall k :: k in r <==> k in record && k != "id"
    ensures forall k :: k in r ==> r[k] == record[k]
  {
    record - {"id"}
  }

  function StripIds(records: seq<Row>): (r: seq<Row>)
    ensures |r| == |records| && forall i :: 0 <= i < |records| ==> r[i] == StripId(records[i])
  {
    seq(|records|, i requires 0 <= i < |records| => StripId(records[i]))
  }

  // ---------------------------------------------------------------------------
  // The 50000-line guard
  // ---------------------------------------------------------------------------

  /** The import lines as the JavaScript array the guard inspects. */
  function LinesValue(lines: seq<Row>): (r: Value)
    ensures r.Arr? && |r.items| == |lines|
  {
    Arr(seq(|lines|, i requires 0 <= i < |lines| => Obj(lines[i])))
  }

  /** The guard as written: `lines.totalCount > 50000` on the array of lines. */
  predicate TooManyLinesAsWritten(lines: seq<Row>) {
    match GetProp(LinesValue(lines), "totalCount")
    case Ok(count) => Gt(count, Int(50000))
    case Err(_) => false
  }

  /** The guard as intended: more than 50000 lines. */
  predicate TooManyLines(lines: seq<Row>) {
    |lines| > 50000
  }

  /** An array has no `totalCount` property, so the guard as written never fires, and a file
      of 50001 lines passes it while the intended guard refuses it. */
  lemma LineGuardIsDead(lines: seq<Row>)
    ensures !TooManyLinesAsWritten(lines)
    ensures |lines| == 50001 ==> TooManyLines(lines)
  {
    assert "totalCount"[0] == 't';
    assert ParseIndex("totalCount") == None;
    assert GetProp(LinesValue(lines), "totalCount") == Ok(Undef);
  }
}
