/** How the import actions prepare their property mappings. Versions 2.1, 2.2 and 3.2 compile
    every mapping once (`prepareRelationMappings`): a plain property name is camel-cased, a
    `model.property` value becomes a relation to search, and the callback rewrites the
    caller's mapping objects as it goes. Version 1.0 only camel-cases the property names. */
module ImportMappings {
  import opened Wrappers
  import opened Text
  import opened Js
  import opened Helpers
  import opened ImportRecords

  /** `s.charAt(0).toUpperCase() + s.slice(1)`. */
  function Capitalize(s: string): string {
    if s == [] then [] else UpperFirst(s)
  }

  /** `formatMappings.find(f => f.key === key)`: the first format mapping of the column. */
  function FormatOf(formats: seq<FormatMapping>, key: string): (r: Option<FormatMapping>)
    ensures r.Some? ==> exists i :: 0 <= i < |formats| && formats[i] == r.value && r.value.key == key &&
                                    forall j :: 0 <= j < i ==> formats[j].key != key
    ensures r.None? ==> forall i :: 0 <= i < |formats| ==> formats[i].key != key
  {
    if formats == [] then None
    else if formats[0].key == key then Some(formats[0])
    else
      var r := FormatOf(formats[1..], key);
      assert forall i :: 1 <= i < |formats| ==> formats[i] == formats[1..][i - 1];
      if r.Some? then
        assert exists i :: 1 <= i < |formats| && formats[i] == r.value && r.value.key == key &&
                           forall j :: 0 <= j < i ==> formats[j].key != key;
        r
      else r
  }

  /** The declared type of a relation's searched property: the lower-cased, trimmed value of
      the column's format mapping, when there is one. */
  function PropertyType(formats: seq<FormatMapping>, key: string): Option<string> {
    match FormatOf(formats, key)
    case Some(f) => Some(Trim(ToLower(f.value)))
    case None => None
  }

  /** The relation a `model.property` mapping compiles to. Without format mappings the type
      stays unset: the callback fails before it can set it. */
  function RelationOf(key: string, model: string, formats: Option<seq<FormatMapping>>): Relation {
    var name := SnakeToCamel(model);
    Relation(Capitalize(name), name, key, if formats.Some? then PropertyType(formats.value, key) else None)
  }

  /** The mapping object after the callback has run on it: `isRelation` is cleared; a value
      without a dot is camel-cased; a value of two dotted segments becomes a relation whose
      property is the camel-cased second segment; a value of more segments is left alone. */
  function Rewritten(m: Mapping, formats: Option<seq<FormatMapping>>): (r: Mapping)
    ensures r.key == m.key
    ensures r.relation.Some? ==> r.relation.value.importName == m.key
  {
    if !Contains(m.value, ".") then Mapping(m.key, SnakeToCamel(m.value), None)
    else
      var parts := Split(m.value, ".");
      if |parts| == 2 then Mapping(m.key, SnakeToCamel(parts[1]), Some(RelationOf(m.key, parts[0], formats)))
      else m.(relation := None)
  }

  /** What the callback returns for one mapping: the rewritten mapping, nothing (`undefined`)
      for a value of three or more segments, or the TypeError of `formatMappings.find` when a
      relation is compiled without format mappings. */
  function Entry(m: Mapping, formats: Option<seq<FormatMapping>>): (r: Result<Option<Mapping>>)
    ensures r.Ok? && r.value.Some? ==> r.value.value == Rewritten(m, formats)
    ensures r.Err? ==> r.message == ReadError(Undef, "find")
  {
    if !Contains(m.value, ".") then Ok(Some(Rewritten(m, formats)))
    else if |Split(m.value, ".")| == 2 then
      if formats.None? then Err(ReadError(Undef, "find")) else Ok(Some(Rewritten(m, formats)))
    else Ok(None)
  }

  /** `prepareRelationMappings(mappings, formats)`: the callback's results in order, or the
      first error. (`enrichedMapping || propertyMapping` always yields the mapped array, which
      is truthy even when empty.) */
  function Compile(ms: seq<Mapping>, formats: Option<seq<FormatMapping>>): (r: Result<seq<Option<Mapping>>>)
    ensures r.Ok? <==> forall i :: 0 <= i < |ms| ==> Entry(ms[i], formats).Ok?
    ensures r.Ok? ==> |r.value| == |ms| && forall i :: 0 <= i < |ms| ==> Entry(ms[i], formats) == Ok(r.value[i])
    ensures r.Err? ==> r.message == ReadError(Undef, "find")
  {
    if ms == [] then Ok([])
    else
      var e :- Entry(ms[0], formats);
      var rest :- Compile(ms[1..], formats);
      assert forall i :: 1 <= i < |ms| ==> ms[i] == ms[1..][i - 1];
      Ok([e] + rest)
  }

  /** The compile of the actions: the callback runs over the caller's array, rewriting each
      mapping object in place, and stops at the first error with the earlier objects and the
      failing one already rewritten. */
  method PrepareRelationMappings(mappings: array<Mapping>, formats: Option<seq<FormatMapping>>)
    returns (r: Result<seq<Option<Mapping>>>)
    modifies mappings
    ensures r == Compile(old(mappings[..]), formats)
    ensures r.Ok? ==> forall i :: 0 <= i < mappings.Length ==> mappings[i] == Rewritten(old(mappings[i]), formats)
    ensures r.Err? ==> exists k :: StoppedAt(old(mappings[..]), mappings[..], formats, k)
  {
    ghost var ms := mappings[..];
    var entries: seq<Option<Mapping>> := [];
    var i := 0;
    while i < mappings.Length
      invariant 0 <= i <= mappings.Length
      invariant |entries| == i
      invariant forall j :: 0 <= j < i ==> Entry(ms[j], formats) == Ok(entries[j])
      invariant forall j :: 0 <= j < i ==> mappings[j] == Rewritten(ms[j], formats)
      invariant forall j :: i <= j < mappings.Length ==> mappings[j] == ms[j]
    {
      var e := Entry(mappings[i], formats);
      RewriteAt(mappings, i, formats);
      if e.Err? {
        CompileFails(ms, formats, i);
        assert StoppedAt(ms, mappings[..], formats, i);
        return Err(e.message);
      }
      entries := entries + [e.value];
      i := i + 1;
    }
    CompileOfEntries(ms, formats, entries);
    return Ok(entries);
  }

  /** The objects after a compile that stopped at position `k`: the failing one and those
      before it rewritten, those after it as they were. */
  ghost predicate StoppedAt(before: seq<Mapping>, after: seq<Mapping>, formats: Option<seq<FormatMapping>>, k: nat) {
    |after| == |before| && k < |before| && Entry(before[k], formats).Err? &&
    (forall i :: 0 <= i <= k ==> after[i] == Rewritten(before[i], formats)) &&
    forall i :: k < i < |before| ==> after[i] == before[i]
  }

  /** The callback's writes to one mapping object. */
  method RewriteAt(mappings: array<Mapping>, i: nat, formats: Option<seq<FormatMapping>>)
    requires i < mappings.Length
    modifies mappings
    ensures mappings[i] == Rewritten(old(mappings[i]), formats)
    ensures forall j :: 0 <= j < mappings.Length && j != i ==> mappings[j] == old(mappings[j])
  {
    mappings[i] := Rewritten(mappings[i], formats);
  }

  /** Entries that are the callback's results, one per mapping, are the compile's result. */
  lemma CompileOfEntries(ms: seq<Mapping>, formats: Option<seq<FormatMapping>>, entries: seq<Option<Mapping>>)
    requires |entries| == |ms| && forall j :: 0 <= j < |ms| ==> Entry(ms[j], formats) == Ok(entries[j])
    ensures Compile(ms, formats) == Ok(entries)
  {
    var c := Compile(ms, formats);
    assert c.Ok?;
    assert forall j :: 0 <= j < |entries| ==> c.value[j] == entries[j];
    assert c.value == entries;
  }

  /** One failing mapping makes the compile fail. */
  lemma CompileFails(ms: seq<Mapping>, formats: Option<seq<FormatMapping>>, k: nat)
    requires k < |ms| && Entry(ms[k], formats).Err?
    ensures Compile(ms, formats) == Err(ReadError(Undef, "find"))
  {
  }

  /** A value written as dotted segments, none of them holding a dot, compiles by its number
      of segments: one is a plain property, camel-cased; two are a relation to the model named
      by the first segment and a search on the property named by the second, which fails
      without format mappings; three or more give no mapping. */
  lemma {:induction false} EntryOfSegments(key: string, parts: seq<string>, relation: Option<Relation>,
                                           formats: Option<seq<FormatMapping>>)
    requires |parts| >= 1 && forall i :: 0 <= i < |parts| ==> '.' !in parts[i]
    ensures var m := Mapping(key, Join(parts, "."), relation);
            |parts| == 1 ==> Entry(m, formats) == Ok(Some(Mapping(key, SnakeToCamel(parts[0]), None)))
    ensures var m := Mapping(key, Join(parts, "."), relation);
            |parts| == 2 && formats.Some? ==>
              Entry(m, formats) == Ok(Some(Mapping(key, SnakeToCamel(parts[1]), Some(RelationOf(key, parts[0], formats)))))
    ensures var m := Mapping(key, Join(parts, "."), relation);
            |parts| == 2 && formats.None? ==> Entry(m, formats) == Err(ReadError(Undef, "find"))
    ensures var m := Mapping(key, Join(parts, "."), relation);
            |parts| >= 3 ==> Entry(m, formats) == Ok(None)
  {
    var value := Join(parts, ".");
    SplitJoin(parts, '.');
    ContainsChar(value, '.');
    if |parts| == 1 {
      assert value == parts[0];
    } else {
      assert value == parts[0] + "." + Join(parts[1..], ".");
      assert value[|parts[0]|] == '.';
    }
  }

  /** The names a relation mapping `model_words.property_words` compiles to: the model and
      the relation field are the camel-cased model words, the model with its first letter in
      upper case, and the searched property is the camel-cased property words. */
  lemma RelationNames(key: string, model: seq<string>, property: seq<string>, fs: seq<FormatMapping>)
    requires |model| >= 1 && |property| >= 1 && AllWords(model) && AllWords(property)
    ensures var e := Entry(Mapping(key, Join(model, "_") + "." + Join(property, "_"), None), Some(fs));
            e.Ok? && e.value.Some? && e.value.value.relation.Some? &&
            e.value.value.value == property[0] + CamelTail(property[1..]) &&
            e.value.value.relation.value.name == model[0] + CamelTail(model[1..]) &&
            e.value.value.relation.value.modelName == UpperFirst(model[0] + CamelTail(model[1..])) &&
            e.value.value.relation.value.propertyType == PropertyType(fs, key)
  {
    var a, b := Join(model, "_"), Join(property, "_");
    WordsHaveNoDot(model);
    WordsHaveNoDot(property);
    assert Join([a, b], ".") == a + "." + b;
    EntryOfSegments(key, [a, b], None, Some(fs));
    SnakeToCamelWords(model);
    SnakeToCamelWords(property);
    assert model[0] != [];
  }

  /** Snake-case words joined by underscores hold no dot. */
  lemma {:induction false} WordsHaveNoDot(ws: seq<string>)
    requires AllWords(ws)
    ensures '.' !in Join(ws, "_")
    decreases |ws|
  {
    if |ws| > 1 {
      WordsHaveNoDot(ws[1..]);
      assert IsWord(ws[0]) && '.' !in ws[0];
      assert Join(ws, "_") == ws[0] + "_" + Join(ws[1..], "_");
    } else if |ws| == 1 {
      assert IsWord(ws[0]);
    }
  }

  /** As written, the update mappings are compiled without format mappings: one relation among
      them makes the whole compile fail. */
  lemma {:induction false} CompileWithoutFormatsFails(ms: seq<Mapping>, k: nat)
    requires k < |ms| && Contains(ms[k].value, ".") && |Split(ms[k].value, ".")| == 2
    ensures Compile(ms, None) == Err(ReadError(Undef, "find"))
  {
    assert Entry(ms[k], None).Err?;
  }

  /** With format mappings the compile never fails, and it drops exactly the mappings of three
      or more segments. */
  lemma CompileWithFormats(ms: seq<Mapping>, fs: seq<FormatMapping>)
    ensures Compile(ms, Some(fs)).Ok?
    ensures forall i :: 0 <= i < |ms| ==>
              (Compile(ms, Some(fs)).value[i].None? <==> Contains(ms[i].value, ".") && |Split(ms[i].value, ".")| != 2)
  {
  }

  // ---------------------------------------------------------------------------
  // Version 1.0
  // ---------------------------------------------------------------------------

  /** The mapping with its property name camel-cased. */
  function CamelCased(m: Mapping): (r: Mapping)
    ensures r.key == m.key && r.relation == m.relation
  {
    m.(value := SnakeToCamel(m.value))
  }

  /** The 1.0 action camel-cases the property name of every mapping object in place. */
  method CamelCaseValues(mappings: array<Mapping>)
    modifies mappings
    ensures forall i :: 0 <= i < mappings.Length ==> mappings[i] == CamelCased(old(mappings[i]))
  {
    var i := 0;
    while i < mappings.Length
      invariant 0 <= i <= mappings.Length
      invariant forall j :: 0 <= j < i ==> mappings[j] == CamelCased(old(mappings[j]))
      invariant forall j :: i <= j < mappings.Length ==> mappings[j] == old(mappings[j])
    {
      mappings[i] := CamelCased(mappings[i]);
      i := i + 1;
    }
  }

  /** On a property name without a dot, 1.0 and the later versions agree; a snake-case name
      loses its underscores and has each later word capitalised. */
  lemma PlainMappingAgrees(key: string, ws: seq<string>, formats: Option<seq<FormatMapping>>)
    requires |ws| >= 1 && AllWords(ws)
    ensures var m := Mapping(key, Join(ws, "_"), None);
            Entry(m, formats) == Ok(Some(CamelCased(m))) &&
            CamelCased(m).value == ws[0] + CamelTail(ws[1..])
  {
    var value := Join(ws, "_");
    WordsHaveNoDot(ws);
    ContainsChar(value, '.');
    SnakeToCamelWords(ws);
  }
}
