/** The building of the records of one batch of import lines (`prepareImportLines` of 3.2,
    `prepareRecords` of 2.2 and 2.1, `processRecords` of 1.0): for each line, the object to
    create from the main mappings, the object to update from the update mappings, and the
    line's classification as a create, an update or a skip. */
module ImportReconcile {
  import opened Wrappers
  import opened Js
  import opened Helpers
  import opened ImportRecords
  import opened ImportLookup
  import opened ImportFormat

  /** The action versions: 3.2, 2.2 and 2.1 (which build records alike), and 1.0. */
  datatype Version = V3 | V2 | V1

  // ---------------------------------------------------------------------------
  // Default values (3.2)
  // ---------------------------------------------------------------------------

  /** The default mappings written in order under the camel-cased name of their key. */
  function Defaults(defaults: seq<DefaultMapping>): (r: Row)
    ensures forall i :: 0 <= i < |defaults| ==> SnakeToCamel(defaults[i].key) in r
    decreases |defaults|
  {
    if defaults == [] then map[]
    else
      var d := defaults[|defaults| - 1];
      Defaults(defaults[..|defaults| - 1])[SnakeToCamel(d.key) := d.value]
  }

  /** A default is written unless a later default has the same camel-cased name. */
  lemma {:induction false} DefaultsValue(defaults: seq<DefaultMapping>, i: nat)
    requires i < |defaults|
    requires forall j :: i < j < |defaults| ==> SnakeToCamel(defaults[j].key) != SnakeToCamel(defaults[i].key)
    ensures Defaults(defaults)[SnakeToCamel(defaults[i].key)] == defaults[i].value
    decreases |defaults|
  {
    if i < |defaults| - 1 {
      DefaultsValue(defaults[..|defaults| - 1], i);
    }
  }

  // ---------------------------------------------------------------------------
  // Relation targets
  // ---------------------------------------------------------------------------

  /** `lookupData.find(item => item.relationImportName === key)`. */
  function FindLookup(lookup: seq<LookupItem>, key: string): (r: Option<LookupItem>)
    ensures r.Some? ==> exists i :: 0 <= i < |lookup| && lookup[i] == r.value && r.value.importName == key &&
                                    forall j :: 0 <= j < i ==> lookup[j].importName != key
    ensures r.None? ==> forall i :: 0 <= i < |lookup| ==> lookup[i].importName != key
  {
    if lookup == [] then None
    else if lookup[0].importName == key then Some(lookup[0])
    else
      var r := FindLookup(lookup[1..], key);
      assert forall i :: 1 <= i < |lookup| ==> lookup[i] == lookup[1..][i - 1];
      r
  }

  /** Whether a target whose searched property holds `a` is the one a cell `v` names: loose
      equality in 3.2; strict equality in 2.x, whose `find` callback returns the target itself
      and so also needs it truthy. */
  predicate Related(version: Version, target: Value, a: Value, v: Value) {
    if version == V3 then LooseEq(a, v) else StrictEq(a, v) && Truthy(target)
  }

  /** `records.find(...)` over the relation targets: the first related one, or the error of
      reading the property of an `undefined` or `null` target. */
  function FindRelated(version: Version, records: seq<Value>, prop: string, v: Value): (r: Result<Option<Value>>)
    ensures r.Ok? && r.value.Some? ==>
              exists i :: 0 <= i < |records| && records[i] == r.value.value && !IsNullish(records[i]) &&
                          Related(version, records[i], GetProp(records[i], prop).value, v) &&
                          forall j :: 0 <= j < i ==>
                            !IsNullish(records[j]) && !Related(version, records[j], GetProp(records[j], prop).value, v)
    ensures r.Ok? && r.value.None? ==>
              forall i :: 0 <= i < |records| ==>
                !IsNullish(records[i]) && !Related(version, records[i], GetProp(records[i], prop).value, v)
    ensures r.Err? ==> exists i :: 0 <= i < |records| && IsNullish(records[i])
  {
    if records == [] then Ok(None)
    else
      var a :- GetProp(records[0], prop);
      if Related(version, records[0], a, v) then Ok(Some(records[0]))
      else
        var r := FindRelated(version, records[1..], prop, v);
        assert forall i :: 1 <= i < |records| ==> records[i] == records[1..][i - 1];
        r
  }

  // ---------------------------------------------------------------------------
  // The objects of one line
  // ---------------------------------------------------------------------------

  /** A mapped cell as the record building reads it: in 3.2 the starred read (corrected to
      keep a formatted `false`), in 2.x and 1.0 the plain property. */
  function RawCell(version: Version, line: Row, key: string): Value {
    if version == V3 then ReadCell(line, key) else Field(line, key)
  }

  /** The value a plain mapping writes: 3.2 writes `null` for an absent cell. */
  function CellOf(version: Version, line: Row, key: string): (r: Value)
    ensures version == V3 ==> r != Undef
  {
    if version == V3 then Coalesce(RawCell(version, line, key), Null) else RawCell(version, line, key)
  }

  /** In 3.2 a blank starred cell whose column without the star is absent writes `null`. */
  lemma CellOfBlankStarred(line: Row, key: string)
    requires Starred(key) && Field(line, key) == Str("") && Unstarred(key) !in line
    ensures CellOf(V3, line, key) == Null
  {
  }

  /** Whether a mapping is built as a relation: 1.0 has no relations. */
  predicate IsRelation(version: Version, m: Mapping) {
    version != V1 && m.relation.Some?
  }

  /** The property a mapping writes: the relation field, or the property name. */
  function WrittenName(version: Version, m: Mapping): string {
    if IsRelation(version, m) then m.relation.value.name else m.value
  }

  /** The value a main mapping writes for a line, `None` when it writes nothing: a plain
      mapping writes its cell; a relation without a lookup list writes nothing; with one, the
      id of the related target (3.2) or an object holding it (2.x), or `{}` when no target
      is related. */
  function Written(version: Version, m: Mapping, line: Row, lookup: seq<LookupItem>): (r: Result<Option<Value>>)
    ensures !IsRelation(version, m) ==> r == Ok(Some(CellOf(version, line, m.key)))
    ensures IsRelation(version, m) && FindLookup(lookup, m.key).None? ==> r == Ok(None)
    ensures IsRelation(version, m) && FindLookup(lookup, m.key).Some? ==>
              var found := FindRelated(version, FindLookup(lookup, m.key).value.records, m.value, RawCell(version, line, m.key));
              (r.Err? <==> found.Err?) &&
              (found == Ok(None) ==> r == Ok(Some(Obj(map[])))) &&
              (found.Ok? && found.value.Some? ==>
                 var id := GetProp(found.value.value, "id").value;
                 r == Ok(Some(if version == V3 then id else Obj(map["id" := id]))))
  {
    if !IsRelation(version, m) then Ok(Some(CellOf(version, line, m.key)))
    else
      match FindLookup(lookup, m.key)
      case None => Ok(None)
      case Some(item) =>
        var found :- FindRelated(version, item.records, m.value, RawCell(version, line, m.key));
        match found
        case None => Ok(Some(Obj(map[])))
        case Some(target) =>
          var id := GetProp(target, "id").value;
          Ok(Some(if version == V3 then id else Obj(map["id" := id])))
  }

  /** The object to create: the main mappings written in order over `base`. */
  function ImportObject(version: Version, base: Row, ms: seq<Mapping>, line: Row, lookup: seq<LookupItem>): Result<Row>
    decreases |ms|
  {
    if ms == [] then Ok(base)
    else
      var prev :- ImportObject(version, base, ms[..|ms| - 1], line, lookup);
      var m := ms[|ms| - 1];
      var w :- Written(version, m, line, lookup);
      match w
      case None => Ok(prev)
      case Some(v) => Ok(prev[WrittenName(version, m) := v])
  }

  /** The object to update: every update mapping writes its cell, relation or not. */
  function UpdateObject(version: Version, base: Row, ms: seq<Mapping>, line: Row): Row
    decreases |ms|
  {
    if ms == [] then base
    else
      var m := ms[|ms| - 1];
      UpdateObject(version, base, ms[..|ms| - 1], line)[m.value := CellOf(version, line, m.key)]
  }

  /** The last main mapping writing a property decides its value. */
  lemma {:induction false} ImportObjectLast(version: Version, base: Row, ms: seq<Mapping>, line: Row,
                                            lookup: seq<LookupItem>, j: nat, v: Value)
    requires j < |ms| && Written(version, ms[j], line, lookup) == Ok(Some(v))
    requires forall k :: j < k < |ms| ==> WrittenName(version, ms[k]) != WrittenName(version, ms[j])
    requires ImportObject(version, base, ms, line, lookup).Ok?
    ensures var r := ImportObject(version, base, ms, line, lookup).value;
            WrittenName(version, ms[j]) in r && r[WrittenName(version, ms[j])] == v
    decreases |ms|
  {
    if j < |ms| - 1 {
      ImportObjectLast(version, base, ms[..|ms| - 1], line, lookup, j, v);
    }
  }

  /** A property no main mapping writes keeps its value from `base` (a default in 3.2). */
  lemma {:induction false} ImportObjectFrame(version: Version, base: Row, ms: seq<Mapping>, line: Row,
                                             lookup: seq<LookupItem>, name: string)
    requires forall k :: 0 <= k < |ms| ==> WrittenName(version, ms[k]) != name
    requires ImportObject(version, base, ms, line, lookup).Ok?
    ensures var r := ImportObject(version, base, ms, line, lookup).value;
            (name in r <==> name in base) && (name in base ==> r[name] == base[name])
    decreases |ms|
  {
    if ms != [] {
      ImportObjectFrame(version, base, ms[..|ms| - 1], line, lookup, name);
    }
  }

  /** The object fails exactly when one of its mappings fails to write. */
  lemma ImportObjectFails(version: Version, base: Row, ms: seq<Mapping>, line: Row, lookup: seq<LookupItem>)
    ensures ImportObject(version, base, ms, line, lookup).Err? <==>
            exists k :: 0 <= k < |ms| && Written(version, ms[k], line, lookup).Err?
  {
    if ImportObject(version, base, ms, line, lookup).Err? {
      var k := ObjectErrWitness(version, base, ms, line, lookup);
    } else {
      forall k | 0 <= k < |ms| ensures Written(version, ms[k], line, lookup).Ok? {
        ObjectOkAll(version, base, ms, line, lookup, k);
      }
    }
  }

  /** A failing object has a mapping that fails to write. */
  lemma {:induction false} ObjectErrWitness(version: Version, base: Row, ms: seq<Mapping>, line: Row,
                                            lookup: seq<LookupItem>) returns (k: nat)
    requires ImportObject(version, base, ms, line, lookup).Err?
    ensures k < |ms| && Written(version, ms[k], line, lookup).Err?
    decreases |ms|
  {
    var init := ms[..|ms| - 1];
    if ImportObject(version, base, init, line, lookup).Err? {
      k := ObjectErrWitness(version, base, init, line, lookup);
      assert init[k] == ms[k];
    } else {
      k := |ms| - 1;
    }
  }

  /** In an object that is built, every mapping writes. */
  lemma {:induction false} ObjectOkAll(version: Version, base: Row, ms: seq<Mapping>, line: Row,
                                       lookup: seq<LookupItem>, k: nat)
    requires ImportObject(version, base, ms, line, lookup).Ok? && k < |ms|
    ensures Written(version, ms[k], line, lookup).Ok?
    decreases |ms|
  {
    var init := ms[..|ms| - 1];
    if k < |ms| - 1 {
      ObjectOkAll(version, base, init, line, lookup, k);
      assert init[k] == ms[k];
    }
  }

  /** The last update mapping writing a property decides its value. */
  lemma {:induction false} UpdateObjectLast(version: Version, base: Row, ms: seq<Mapping>, line: Row, j: nat)
    requires j < |ms|
    requires forall k :: j < k < |ms| ==> ms[k].value != ms[j].value
    ensures var r := UpdateObject(version, base, ms, line);
            ms[j].value in r && r[ms[j].value] == CellOf(version, line, ms[j].key)
    decreases |ms|
  {
    if j < |ms| - 1 {
      UpdateObjectLast(version, base, ms[..|ms| - 1], line, j);
    }
  }

  /** A property no update mapping writes keeps its value from `base`. */
  lemma {:induction false} UpdateObjectFrame(version: Version, base: Row, ms: seq<Mapping>, line: Row, name: string)
    requires forall k :: 0 <= k < |ms| ==> ms[k].value != name
    ensures var r := UpdateObject(version, base, ms, line);
            (name in r <==> name in base) && (name in base ==> r[name] == base[name])
    decreases |ms|
  {
    if ms != [] {
      UpdateObjectFrame(version, base, ms[..|ms| - 1], line, name);
    }
  }

  /** The loop over the main mappings, writing into a fresh object. */
  method BuildImportObject(version: Version, base: Row, ms: seq<Mapping>, line: Row, lookup: seq<LookupItem>)
    returns (r: Result<Row>)
    ensures r == ImportObject(version, base, ms, line, lookup)
  {
    var obj := base;
    for k := 0 to |ms|
      invariant ImportObject(version, base, ms[..k], line, lookup) == Ok(obj)
    {
      assert ms[..k + 1][..k] == ms[..k];
      var w := Written(version, ms[k], line, lookup);
      if w.Err? {
        assert ms[..k + 1][k] == ms[k];
        assert ImportObject(version, base, ms[..k + 1], line, lookup) == Err(w.message);
        ImportObjectErrPrefix(version, base, ms, line, lookup, k + 1);
        return Err(w.message);
      }
      if w.value.Some? {
        obj := obj[WrittenName(version, ms[k]) := w.value.value];
      }
    }
    assert ms[..|ms|] == ms;
    r := Ok(obj);
  }

  /** A failure among the first mappings is the failure of the whole object. */
  lemma {:induction false} ImportObjectErrPrefix(version: Version, base: Row, ms: seq<Mapping>, line: Row,
                                                 lookup: seq<LookupItem>, k: nat)
    requires k <= |ms| && ImportObject(version, base, ms[..k], line, lookup).Err?
    ensures ImportObject(version, base, ms, line, lookup) == ImportObject(version, base, ms[..k], line, lookup)
    decreases |ms| - k
  {
    if k < |ms| {
      assert ms[..k + 1][..k] == ms[..k];
      ImportObjectErrPrefix(version, base, ms, line, lookup, k + 1);
    } else {
      assert ms[..k] == ms;
    }
  }

  /** The loop over the update mappings. */
  method BuildUpdateObject(version: Version, base: Row, ms: seq<Mapping>, line: Row) returns (r: Row)
    ensures r == UpdateObject(version, base, ms, line)
  {
    r := base;
    for k := 0 to |ms|
      invariant r == UpdateObject(version, base, ms[..k], line)
    {
      assert ms[..k + 1][..k] == ms[..k];
      r := r[ms[k].value := CellOf(version, line, ms[k].key)];
    }
    assert ms[..|ms|] == ms;
  }

  // ---------------------------------------------------------------------------
  // The lines of a batch
  // ---------------------------------------------------------------------------

  /** What the record building of a batch is given: the version, the compiled main and update
      mappings, the default mappings (3.2), the relation lookup lists, the deduplication flag,
      the unique column, the mapping found for it and the stored records read for the batch. */
  datatype Plan = Plan(version: Version, main: seq<Mapping>, updates: seq<Mapping>,
                       defaults: seq<DefaultMapping>, lookup: seq<LookupItem>, deduplicate: bool,
                       uniqueColumn: string, uid: Option<Mapping>, existing: seq<Value>)

  /** The object both builds start from: the defaults in 3.2, an empty object before. */
  function Base(p: Plan): Row {
    if p.version == V3 then Defaults(p.defaults) else map[]
  }

  function DedupOf(p: Plan): Dedup {
    Dedup(p.deduplicate, p.uniqueColumn, p.uid, p.existing, |p.updates| > 0)
  }

  /** The outcome of one line. Before 3.2, a run without main mappings builds nothing. */
  function LineOutcome(p: Plan, line: Row): Result<Outcome> {
    if p.version != V3 && p.main == [] then Ok(Skip)
    else
      var importObj :- ImportObject(p.version, Base(p), p.main, line, p.lookup);
      Classify(line, importObj, UpdateObject(p.version, Base(p), p.updates, line), DedupOf(p))
  }

  /** The outcomes of the lines in order, or the first failure. */
  function Outcomes(p: Plan, lines: seq<Row>): (r: Result<seq<Outcome>>)
    ensures r.Ok? ==> |r.value| == |lines|
    decreases |lines|
  {
    if lines == [] then Ok([])
    else
      var prev :- Outcomes(p, lines[..|lines| - 1]);
      var o :- LineOutcome(p, lines[|lines| - 1]);
      Ok(prev + [o])
  }

  /** The records to create and to update, each in line order. */
  datatype Prepared = Prepared(creates: seq<Row>, updates: seq<Row>)

  function Prepare(p: Plan, lines: seq<Row>): Result<Prepared> {
    var os :- Outcomes(p, lines);
    Ok(Prepared(Creates(os), Updates(os)))
  }

  /** The outcomes are the lines' own outcomes, one per line; a failure is a line's failure. */
  lemma OutcomesPointwise(p: Plan, lines: seq<Row>)
    ensures var r := Outcomes(p, lines);
            r.Ok? <==> forall i :: 0 <= i < |lines| ==> LineOutcome(p, lines[i]).Ok?
    ensures var r := Outcomes(p, lines);
            r.Ok? ==> forall i :: 0 <= i < |lines| ==> LineOutcome(p, lines[i]) == Ok(r.value[i])
    ensures var r := Outcomes(p, lines);
            r.Err? ==> exists i :: 0 <= i < |lines| && LineOutcome(p, lines[i]) == Err(r.message)
  {
    var r := Outcomes(p, lines);
    if r.Ok? {
      forall i | 0 <= i < |lines| ensures LineOutcome(p, lines[i]) == Ok(r.value[i]) {
        OutcomesOkAt(p, lines, i);
      }
    } else {
      var i := OutcomesErrWitness(p, lines);
    }
  }

  /** In a batch that goes through, each line's outcome is the outcome at its index. */
  lemma {:induction false} OutcomesOkAt(p: Plan, lines: seq<Row>, i: nat)
    requires Outcomes(p, lines).Ok? && i < |lines|
    ensures LineOutcome(p, lines[i]) == Ok(Outcomes(p, lines).value[i])
    decreases |lines|
  {
    var init := lines[..|lines| - 1];
    if i < |lines| - 1 {
      OutcomesOkAt(p, init, i);
      assert init[i] == lines[i];
    }
  }

  /** A failing batch has a line whose outcome is that failure. */
  lemma {:induction false} OutcomesErrWitness(p: Plan, lines: seq<Row>) returns (i: nat)
    requires Outcomes(p, lines).Err?
    ensures i < |lines| && LineOutcome(p, lines[i]) == Err(Outcomes(p, lines).message)
    decreases |lines|
  {
    var init := lines[..|lines| - 1];
    if Outcomes(p, init).Err? {
      i := OutcomesErrWitness(p, init);
      assert init[i] == lines[i];
    } else {
      i := |lines| - 1;
    }
  }

  /** A failure among the first lines is the failure of the batch. */
  lemma {:induction false} OutcomesErrPrefix(p: Plan, lines: seq<Row>, k: nat)
    requires k <= |lines| && Outcomes(p, lines[..k]).Err?
    ensures Outcomes(p, lines) == Outcomes(p, lines[..k])
    decreases |lines| - k
  {
    if k < |lines| {
      assert lines[..k + 1][..k] == lines[..k];
      OutcomesErrPrefix(p, lines, k + 1);
    } else {
      assert lines[..k] == lines;
    }
  }

  /** Every line is created, updated or skipped: no more records than lines. */
  lemma OutcomesCount(p: Plan, lines: seq<Row>)
    requires Prepare(p, lines).Ok?
    ensures var r := Prepare(p, lines).value;
            |r.creates| + |r.updates| <= |lines|
  {
    OutcomesPartition(Outcomes(p, lines).value);
  }

  /** Without deduplication, every line gives the record to create built from it (in 3.2
      always, before 3.2 when main mappings exist), and nothing is updated. */
  lemma NoDedupCreatesAll(p: Plan, lines: seq<Row>)
    requires !p.deduplicate && (p.version == V3 || p.main != [])
    requires Prepare(p, lines).Ok?
    ensures var r := Prepare(p, lines).value;
            r.updates == [] && |r.creates| == |lines| &&
            forall i :: 0 <= i < |lines| ==>
              Ok(r.creates[i]) == ImportObject(p.version, Base(p), p.main, lines[i], p.lookup)
  {
    var os := Outcomes(p, lines).value;
    forall i | 0 <= i < |os|
      ensures os[i].Create? && Ok(os[i].record) == ImportObject(p.version, Base(p), p.main, lines[i], p.lookup)
    {
      OutcomesOkAt(p, lines, i);
    }
    AllCreated(os);
  }

  /** Outcomes that are all creates give their records, in order, and no update. */
  lemma {:induction false} AllCreated(os: seq<Outcome>)
    requires forall i :: 0 <= i < |os| ==> os[i].Create?
    ensures Updates(os) == [] && |Creates(os)| == |os|
    ensures forall i :: 0 <= i < |os| ==> Creates(os)[i] == os[i].record
    decreases |os|
  {
    if os != [] {
      AllCreated(os[1..]);
      assert forall i :: 1 <= i < |os| ==> os[1..][i - 1] == os[i];
    }
  }

  /** One more line: its outcome is appended, and so are its records. */
  lemma OutcomesStep(p: Plan, lines: seq<Row>, i: nat, o: Outcome)
    requires i < |lines| && Outcomes(p, lines[..i]).Ok? && LineOutcome(p, lines[i]) == Ok(o)
    ensures Outcomes(p, lines[..i + 1]).Ok?
    ensures Creates(Outcomes(p, lines[..i + 1]).value) == Creates(Outcomes(p, lines[..i]).value) + Creates([o])
    ensures Updates(Outcomes(p, lines[..i + 1]).value) == Updates(Outcomes(p, lines[..i]).value) + Updates([o])
  {
    assert lines[..i + 1][..i] == lines[..i];
    assert lines[..i + 1][i] == lines[i];
    var prev := Outcomes(p, lines[..i]).value;
    assert Outcomes(p, lines[..i + 1]) == Ok(prev + [o]);
    CreatesAppend(prev, [o]);
    UpdatesAppend(prev, [o]);
  }

  /** `prepareImportLines` / `prepareRecords`: the loop over the lines, pushing each line's
      record onto the list of records to create or to update. */
  method PrepareImportLines(p: Plan, lines: seq<Row>) returns (r: Result<Prepared>)
    ensures r == Prepare(p, lines)
  {
    var creates: seq<Row> := [];
    var updates: seq<Row> := [];
    for i := 0 to |lines|
      invariant Outcomes(p, lines[..i]).Ok?
      invariant creates == Creates(Outcomes(p, lines[..i]).value)
      invariant updates == Updates(Outcomes(p, lines[..i]).value)
    {
      var o := BuildLine(p, lines[i]);
      if o.Err? {
        assert lines[..i + 1][..i] == lines[..i];
        assert lines[..i + 1][i] == lines[i];
        OutcomesErrPrefix(p, lines, i + 1);
        return Err(o.message);
      }
      OutcomesStep(p, lines, i, o.value);
      creates, updates := Tally(creates, updates, o.value);
    }
    assert lines[..|lines|] == lines;
    r := Ok(Prepared(creates, updates));
  }

  /** The record of one outcome pushed onto the list it belongs to. */
  method Tally(creates: seq<Row>, updates: seq<Row>, o: Outcome) returns (creates': seq<Row>, updates': seq<Row>)
    ensures creates' == creates + Creates([o]) && updates' == updates + Updates([o])
  {
    assert [o][1..] == [];
    match o
    case Create(record) =>
      creates', updates' := creates + [record], updates;
    case Update(record) =>
      creates', updates' := creates, updates + [record];
    case Skip =>
      creates', updates' := creates, updates;
  }

  /** The body of the loop for one line: both objects built, then the classification. */
  method BuildLine(p: Plan, line: Row) returns (o: Result<Outcome>)
    ensures o == LineOutcome(p, line)
  {
    if p.version != V3 && p.main == [] {
      return Ok(Skip);
    }
    var importObj := BuildImportObject(p.version, Base(p), p.main, line, p.lookup);
    if importObj.Err? {
      return Err(importObj.message);
    }
    var updateObj := BuildUpdateObject(p.version, Base(p), p.updates, line);
    o := Classify(line, importObj.value, updateObj, DedupOf(p));
  }

  /** The records up to and including position `k` are formatted by 1.0; the rest are as they
      were. */
  ghost predicate FormattedThrough(lib: DateLib, before: seq<Row>, after: seq<Row>, keys: seq<string>,
                                   formats: seq<FormatMapping>, k: int) {
    |after| == |before| && 0 <= k < |before| &&
    (forall q :: 0 <= q <= k ==> after[q] == FormatLineV1(lib, before[q], keys, formats)) &&
    (forall q :: k < q < |before| ==> after[q] == before[q])
  }

  /** `processRecords` of 1.0, which formats each record in place before building it. When a
      line fails, the records after it are left unformatted. */
  method ProcessRecords(lib: DateLib, p: Plan, records: array<Row>, keys: seq<string>,
                        formats: seq<FormatMapping>) returns (r: Result<Prepared>)
    requires p.version == V1
    modifies records
    ensures r == Prepare(p, FormatLinesV1(lib, old(records[..]), keys, formats))
    ensures r.Ok? ==> forall i :: 0 <= i < records.Length ==>
              records[i] == FormatLineV1(lib, old(records[i]), keys, formats)
    ensures r.Err? ==> exists k :: FormattedThrough(lib, old(records[..]), records[..], keys, formats, k)
  {
    ghost var formatted := FormatLinesV1(lib, records[..], keys, formats);
    var creates: seq<Row> := [];
    var updates: seq<Row> := [];
    for i := 0 to records.Length
      invariant Outcomes(p, formatted[..i]).Ok?
      invariant creates == Creates(Outcomes(p, formatted[..i]).value)
      invariant updates == Updates(Outcomes(p, formatted[..i]).value)
      invariant forall q :: 0 <= q < i ==> records[q] == formatted[q]
      invariant forall q :: i <= q < records.Length ==> records[q] == old(records[q])
      invariant |formatted| == records.Length
    {
      var o := FormatAndBuild(lib, p, records, i, keys, formats);
      if o.Err? {
        assert formatted[..i + 1][..i] == formatted[..i];
        assert formatted[..i + 1][i] == formatted[i];
        OutcomesErrPrefix(p, formatted, i + 1);
        assert FormattedThrough(lib, old(records[..]), records[..], keys, formats, i);
        return Err(o.message);
      }
      OutcomesStep(p, formatted, i, o.value);
      creates, updates := Tally(creates, updates, o.value);
    }
    assert formatted[..records.Length] == formatted;
    r := Ok(Prepared(creates, updates));
  }

  /** One record of `processRecords`: formatted in place, then built. */
  method FormatAndBuild(lib: DateLib, p: Plan, records: array<Row>, i: nat, keys: seq<string>,
                        formats: seq<FormatMapping>) returns (o: Result<Outcome>)
    requires i < records.Length
    modifies records
    ensures records[i] == FormatLineV1(lib, old(records[i]), keys, formats)
    ensures forall q :: 0 <= q < records.Length && q != i ==> records[q] == old(records[q])
    ensures o == LineOutcome(p, records[i])
  {
    FormatRecordAt(ConvertV1(lib), false, records, i, keys, formats);
    o := BuildLine(p, records[i]);
  }
}
