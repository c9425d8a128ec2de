/** The formatting of mapped cells before records are built. A format mapping names a column
    and a kind (text, decimal, price, number, checkbox, or a date type and a date format),
    and the cells of that column are rewritten in place, line by line. Version 3.2 reads each
    mapped cell once and writes nothing for falsy cells; 2.2 and 2.1 (identical here) re-read
    the cell for every format mapping; 1.0 formats every cell, present or not. */
module ImportFormat {
  import opened Wrappers
  import opened Text
  import opened Numbers
  import opened Js
  import opened Helpers
  import opened ImportRecords

  // ---------------------------------------------------------------------------
  // Decimal texts
  // ---------------------------------------------------------------------------

  /** The text with its first comma read as the decimal point. */
  function PointText(t: string): (r: string)
    ensures |r| == |t|
  {
    ReplaceFirst(t, ',', '.')
  }

  /** The 3.2 decimal and price conversion: the empty text when no number can be read from
      the front of the text, the text with ".00" appended when it has no point, and otherwise
      the number rendered with two decimals. */
  function DecimalTextV3(t: string): string {
    var s := PointText(t);
    if ParseFloat(s).NaN? then ""
    else if '.' !in s then s + ".00"
    else ToFixed2(ParseFloat(s))
  }

  /** The 2.x decimal conversion: the same, without the check that a number can be read. */
  function DecimalTextV2(t: string): string {
    var s := PointText(t);
    if '.' !in s then s + ".00"
    else ToFixed2(ParseFloat(s))
  }

  lemma TrimStartOfDigits(w: string)
    requires w != [] && IsDigit(w[0])
    ensures TrimStart(w) == w
  {
  }

  /** A run of digits is a whole number: both versions append ".00". */
  lemma DecimalOfDigits(w: string)
    requires w != [] && AllDigits(w)
    ensures DecimalTextV3(w) == w + ".00"
    ensures DecimalTextV2(w) == w + ".00"
  {
    assert forall i :: 0 <= i < |w| ==> w[i] != ',' && w[i] != '.' by {
      forall i | 0 <= i < |w| ensures w[i] != ',' && w[i] != '.' {
        assert IsDigit(w[i]);
      }
    }
    ReplaceFirstSpec(w, ',', '.');
    assert PointText(w) == w;
    TrimStartOfDigits(w);
    LeadingDigitsOf(w, []);
    assert w + [] == w;
    assert !StartsWith(w, "Infinity") by {
      assert IsDigit(w[0]);
    }
    assert ScanMantissa(w).Some?;
    assert ScanUnsigned(w).Some?;
    assert !ParseFloat(w).NaN?;
  }

  /** A text with neither comma nor point from which no number can be read: 3.2 writes the
      empty text, while 2.x appends ".00" to it all the same. */
  lemma DecimalUnparsable(t: string)
    requires ',' !in t && '.' !in t && ParseFloat(t).NaN?
    ensures DecimalTextV3(t) == ""
    ensures DecimalTextV2(t) == t + ".00"
  {
    ReplaceFirstSpec(t, ',', '.');
  }

  /** A decimal comma is read as a point: both versions treat `a,b` as `a.b`. */
  lemma DecimalComma(a: string, b: string)
    requires ',' !in a && ',' !in b
    ensures DecimalTextV3(a + "," + b) == DecimalTextV3(a + "." + b)
    ensures DecimalTextV2(a + "," + b) == DecimalTextV2(a + "." + b)
  {
    ReplaceFirstAt(a, ',', '.', b);
    assert a + "," + b == a + [','] + b;
    assert a + "." + b == a + ['.'] + b;
    assert ',' !in a + "." + b;
    ReplaceFirstSpec(a + "." + b, ',', '.');
  }

  /** With a point, both versions write the number rounded to two decimals, and the written
      text reads back as that rounded number. */
  lemma DecimalReadsBack(t: string, x: real)
    requires '.' in PointText(t) && ParseFloat(PointText(t)) == Fin(x)
    requires -ExponentialLimit < x < ExponentialLimit
    ensures DecimalTextV2(t) == DecimalTextV3(t)
    ensures StringToNumber(DecimalTextV3(t)) == Fin(Rounded2(x))
    ensures var r := DecimalTextV3(t); |r| >= 4 && r[|r| - 3] == '.' && AllDigits(r[|r| - 2..])
  {
    FixedRoundTrip(x);
    FixedShape(x);
  }

  // ---------------------------------------------------------------------------
  // Version 3.2
  // ---------------------------------------------------------------------------

  /** The comma-separated pieces of a trimmed 3.2 format value. */
  function FormatPieces(fm: FormatMapping): (r: seq<string>)
    ensures |r| >= 1
  {
    Split(Trim(fm.value), ",")
  }

  /** The kind a 3.2 format names: its first piece, lower-cased. */
  function FormatType(fm: FormatMapping): string {
    ToLower(FormatPieces(fm)[0])
  }

  predicate IsDateKind(kind: string) {
    kind != "text" && kind != "decimal" && kind != "price" && kind != "number" && kind != "checkbox"
  }

  /** The 3.2 conversion of a truthy cell under one format mapping; `None` leaves it as it is. */
  function FormattedV3(lib: DateLib, v: Value, fm: FormatMapping): (r: Option<Value>)
    requires Truthy(v)
    ensures FormatType(fm) == "text" ==> r == Some(Str(ToStr(v)))
    ensures FormatType(fm) == "decimal" || FormatType(fm) == "price" ==>
              r.Some? && r.value.Str?
    ensures FormatType(fm) == "number" ==> (r.None? <==> !ParseFloat(ToStr(v)).NaN?) && (r.Some? ==> r == Some(Str("")))
    ensures r.Some? && r.value.Bool? <==> FormatType(fm) == "checkbox"
    ensures FormatType(fm) == "checkbox" ==> r == Some(Bool(ConvertToBoolean(v)))
    ensures IsDateKind(FormatType(fm)) ==> r.Some? && (r.value.Null? || r.value.Str?)
  {
    var kind := FormatType(fm);
    if kind == "text" then Some(Str(ToStr(v)))
    else if kind == "decimal" || kind == "price" then Some(Str(DecimalTextV3(ToStr(v))))
    else if kind == "number" then
      if ParseFloat(ToStr(v)).NaN? then Some(Str("")) else None
    else if kind == "checkbox" then Some(Bool(ConvertToBoolean(v)))
    else
      var pieces := FormatPieces(fm);
      var format := if |pieces| > 1 && pieces[1] != "" then pieces[1] else "dd-MM-yyyy";
      var dateType := if pieces[0] != "" then pieces[0] else "Date";
      Some(ConvertToDBDateFormat(lib, v, format, dateType))
  }

  /** The date type and date format of a 3.2 format value `type,format`. */
  lemma DateFormatPieces(lib: DateLib, v: Value, fm: FormatMapping, dateType: string, format: string)
    requires Truthy(v) && IsDateKind(ToLower(dateType)) && dateType != []
    requires ',' !in dateType && ',' !in format && format != []
    requires Trim(fm.value) == dateType + "," + format
    ensures FormatType(fm) == ToLower(dateType)
    ensures FormattedV3(lib, v, fm) == Some(ConvertToDBDateFormat(lib, v, format, dateType))
  {
    PiecesOfPair(fm, dateType, format);
  }

  lemma PiecesOfPair(fm: FormatMapping, a: string, b: string)
    requires ',' !in a && ',' !in b && Trim(fm.value) == a + "," + b
    ensures FormatPieces(fm) == [a, b]
  {
    SplitCons(a, ',', b);
    SplitWithout(b, ',');
    assert a + "," + b == a + [','] + b;
  }

  /** A 3.2 format value without a comma is a date type alone, with the default format. */
  lemma DateTypeAlone(lib: DateLib, v: Value, fm: FormatMapping)
    requires Truthy(v) && ',' !in Trim(fm.value) && Trim(fm.value) != []
    requires IsDateKind(ToLower(Trim(fm.value)))
    ensures FormatType(fm) == ToLower(Trim(fm.value))
    ensures FormattedV3(lib, v, fm) == Some(ConvertToDBDateFormat(lib, v, "dd-MM-yyyy", Trim(fm.value)))
  {
    SplitWithout(Trim(fm.value), ',');
  }

  /** The format mappings of one mapped key applied to a line, in order, with the cell value
      `v` read once before them: each mapping of that key writes its conversion of `v` when `v`
      is truthy. */
  function ApplyFormatsV3(lib: DateLib, line: Row, key: string, v: Value, formats: seq<FormatMapping>): Row
    decreases |formats|
  {
    if formats == [] then line
    else FormatStepV3(lib, ApplyFormatsV3(lib, line, key, v, formats[..|formats| - 1]), key, v, formats[|formats| - 1])
  }

  /** One format mapping applied to the cell of `key`, when it names that key and the cell
      is truthy. */
  function FormatStepV3(lib: DateLib, prev: Row, key: string, v: Value, fm: FormatMapping): Row {
    if fm.key == key && Truthy(v) then
      match FormattedV3(lib, v, fm)
      case None => prev
      case Some(w) => prev[key := w]
    else prev
  }

  /** `formatImportLineValues` on one line: the mapped keys in order, each cell read with
      `||`, a starred key falling back to its unstarred column when its own cell is falsy. */
  function FormatLineV3(lib: DateLib, line: Row, keys: seq<string>, formats: seq<FormatMapping>): Row
    decreases |keys|
  {
    if keys == [] then line
    else
      var prev := FormatLineV3(lib, line, keys[..|keys| - 1], formats);
      var key := keys[|keys| - 1];
      ApplyFormatsV3(lib, prev, key, ReadCellAsWritten(prev, key), formats)
  }

  /** `formatImportLineValues`: every line is formatted in place. */
  method FormatImportLineValues(lib: DateLib, lines: array<Row>, keys: seq<string>, formats: seq<FormatMapping>)
    modifies lines
    ensures forall i :: 0 <= i < lines.Length ==> lines[i] == FormatLineV3(lib, old(lines[i]), keys, formats)
  {
    for i := 0 to lines.Length
      invariant forall p :: 0 <= p < i ==> lines[p] == FormatLineV3(lib, old(lines[p]), keys, formats)
      invariant forall p :: i <= p < lines.Length ==> lines[p] == old(lines[p])
    {
      var line := FormatLineLoop(lib, lines[i], keys, formats);
      lines[i] := line;
    }
  }

  /** The loop over the keys for one line of `formatImportLineValues`. */
  method FormatLineLoop(lib: DateLib, start: Row, keys: seq<string>, formats: seq<FormatMapping>)
    returns (line: Row)
    ensures line == FormatLineV3(lib, start, keys, formats)
  {
    line := start;
    for k := 0 to |keys|
      invariant line == FormatLineV3(lib, start, keys[..k], formats)
    {
      var key := keys[k];
      var v := ReadCellAsWritten(line, key);
      line := ApplyFormatsLoop(lib, line, key, v, formats);
      assert keys[..k + 1][..k] == keys[..k];
    }
    assert keys[..|keys|] == keys;
  }

  /** The loop over the format mappings for one key of a line. */
  method ApplyFormatsLoop(lib: DateLib, before: Row, key: string, v: Value, formats: seq<FormatMapping>)
    returns (line: Row)
    ensures line == ApplyFormatsV3(lib, before, key, v, formats)
  {
    line := before;
    for j := 0 to |formats|
      invariant line == ApplyFormatsV3(lib, before, key, v, formats[..j])
    {
      line := ApplyFormatV3(lib, line, key, v, formats[j]);
      assert formats[..j + 1][..j] == formats[..j];
    }
    assert formats[..|formats|] == formats;
  }

  /** One turn of the loop over the format mappings. */
  method ApplyFormatV3(lib: DateLib, prev: Row, key: string, v: Value, fm: FormatMapping) returns (line: Row)
    ensures line == FormatStepV3(lib, prev, key, v, fm)
  {
    line := prev;
    if fm.key == key && Truthy(v) {
      match FormattedV3(lib, v, fm)
      case None =>
      case Some(w) => line := prev[key := w];
    }
  }

  /** The formats of one key write that key and no other cell. */
  lemma {:induction false} ApplyFormatsV3Frame(lib: DateLib, line: Row, key: string, v: Value,
                                               formats: seq<FormatMapping>, c: string)
    requires c != key || forall j :: 0 <= j < |formats| ==> formats[j].key != c
    ensures var r := ApplyFormatsV3(lib, line, key, v, formats);
            (c in r <==> c in line) && Field(r, c) == Field(line, c)
    decreases |formats|
  {
    if formats != [] {
      ApplyFormatsV3Frame(lib, line, key, v, formats[..|formats| - 1], c);
    }
  }

  /** A falsy cell is left as it is, whatever its format mappings say. */
  lemma {:induction false} ApplyFormatsV3Falsy(lib: DateLib, line: Row, key: string, v: Value,
                                               formats: seq<FormatMapping>)
    requires !Truthy(v)
    ensures ApplyFormatsV3(lib, line, key, v, formats) == line
    decreases |formats|
  {
    if formats != [] {
      ApplyFormatsV3Falsy(lib, line, key, v, formats[..|formats| - 1]);
    }
  }

  /** Of several format mappings of a key, the last one that writes decides the cell. */
  lemma {:induction false} ApplyFormatsV3Last(lib: DateLib, line: Row, key: string, v: Value,
                                              formats: seq<FormatMapping>, j: nat)
    requires Truthy(v) && j < |formats| && formats[j].key == key
    requires forall q :: j < q < |formats| ==> formats[q].key != key
    requires FormattedV3(lib, v, formats[j]).Some?
    ensures var r := ApplyFormatsV3(lib, line, key, v, formats);
            key in r && r[key] == FormattedV3(lib, v, formats[j]).value
    decreases |formats|
  {
    if j < |formats| - 1 {
      ApplyFormatsV3Last(lib, line, key, v, formats[..|formats| - 1], j);
    }
  }

  /** A cell that no format mapping names, or whose column no mapping names, is kept. */
  lemma {:induction false} FormatLineV3Frame(lib: DateLib, line: Row, keys: seq<string>,
                                             formats: seq<FormatMapping>, c: string)
    requires c !in keys || forall j :: 0 <= j < |formats| ==> formats[j].key != c
    ensures var r := FormatLineV3(lib, line, keys, formats);
            (c in r <==> c in line) && Field(r, c) == Field(line, c)
    decreases |keys|
  {
    if keys != [] {
      var init := keys[..|keys| - 1];
      assert c !in keys ==> c !in init;
      FormatLineV3Frame(lib, line, init, formats, c);
      var prev := FormatLineV3(lib, line, init, formats);
      var key := keys[|keys| - 1];
      ApplyFormatsV3Frame(lib, prev, key, ReadCellAsWritten(prev, key), formats, c);
    }
  }

  /** A truthy cell of an unstarred column named by exactly one mapping takes the value of
      the last format mapping of that column that writes. */
  lemma {:induction false} FormatLineV3Formats(lib: DateLib, line: Row, keys: seq<string>,
                                               formats: seq<FormatMapping>, k: nat, j: nat)
    requires k < |keys| && forall q :: 0 <= q < |keys| && q != k ==> keys[q] != keys[k]
    requires !Starred(keys[k]) && Truthy(Field(line, keys[k]))
    requires j < |formats| && formats[j].key == keys[k]
    requires forall q :: j < q < |formats| ==> formats[q].key != keys[k]
    requires FormattedV3(lib, Field(line, keys[k]), formats[j]).Some?
    ensures var r := FormatLineV3(lib, line, keys, formats);
            keys[k] in r && r[keys[k]] == FormattedV3(lib, Field(line, keys[k]), formats[j]).value
    decreases |keys|
  {
    var key := keys[k];
    var init := keys[..|keys| - 1];
    var prev := FormatLineV3(lib, line, init, formats);
    if k == |keys| - 1 {
      assert key !in init;
      FormatLineV3Frame(lib, line, init, formats, key);
      ApplyFormatsV3Last(lib, prev, key, Field(line, key), formats, j);
    } else {
      FormatLineV3Formats(lib, line, init, formats, k, j);
      var last := keys[|keys| - 1];
      ApplyFormatsV3Frame(lib, prev, last, ReadCellAsWritten(prev, last), formats, key);
    }
  }

  /** The 3.2 star fallback loses a formatted falsy value: when the starred column is absent
      and its unstarred column holds a truthy checkbox text such as "false", formatting writes
      `false` under the starred key, yet reading the cell back as written falls through to
      the raw unstarred text. The corrected read returns the formatted value. */
  lemma StarredCheckboxLost(lib: DateLib, line: Row, key: string, fm: FormatMapping)
    requires Starred(key) && key !in line && Truthy(Field(line, Unstarred(key)))
    requires fm.key == key && FormatType(fm) == "checkbox"
    requires !ConvertToBoolean(Field(line, Unstarred(key)))
    ensures var r := FormatLineV3(lib, line, [key], [fm]);
            key in r && r[key] == Bool(false) &&
            ReadCellAsWritten(r, key) == Field(line, Unstarred(key)) &&
            ReadCell(r, key) == Bool(false)
  {
    var u := Field(line, Unstarred(key));
    assert [key][..0] == [];
    assert ReadCellAsWritten(line, key) == u;
    assert [fm][..0] == [];
    assert FormatLineV3(lib, line, [], [fm]) == line;
    assert ApplyFormatsV3(lib, line, key, u, []) == line;
    assert FormattedV3(lib, u, fm) == Some(Bool(false));
    assert ApplyFormatsV3(lib, line, key, u, [fm]) == line[key := Bool(false)];
    var r := FormatLineV3(lib, line, [key], [fm]);
    assert r == line[key := Bool(false)];
    FalsyCellFallsBack(line, key, Bool(false));
    ReadCellReadsBack(line, key, Bool(false));
  }

  // ---------------------------------------------------------------------------
  // Versions 2.2, 2.1 and 1.0
  // ---------------------------------------------------------------------------

  /** The kind a 2.x or 1.0 format names: the whole value, lower-cased and trimmed. */
  function Kind(fm: FormatMapping): string {
    Trim(ToLower(fm.value))
  }

  /** The 2.x conversion of a cell under one format mapping. */
  function FormattedV2(lib: DateLib, v: Value, fm: FormatMapping): (r: Value)
    ensures Kind(fm) == "decimal" ==> r.Str?
    ensures Kind(fm) == "checkbox" ==> r == Bool(ConvertToBoolean(v))
    ensures r.Bool? <==> Kind(fm) == "checkbox"
    ensures Kind(fm) != "decimal" && Kind(fm) != "checkbox" ==>
              r.Null? || (r.Str? && |r.s| <= |Trim(fm.value)|)
  {
    var kind := Kind(fm);
    if kind == "decimal" then Str(DecimalTextV2(ToStr(v)))
    else if kind == "checkbox" then Bool(ConvertToBoolean(v))
    else ConvertToDBDateFormatByLength(lib, v, Trim(fm.value))
  }

  /** The 1.0 conversion of a cell under one format mapping: checkbox or date. */
  function FormattedV1(lib: DateLib, v: Value, fm: FormatMapping): (r: Value)
    ensures Kind(fm) == "checkbox" ==> r == Bool(ConvertToBoolean(v))
    ensures r.Bool? <==> Kind(fm) == "checkbox"
    ensures Kind(fm) != "checkbox" ==> r.Null? || (r.Str? && |r.s| <= |Trim(fm.value)|)
  {
    if Kind(fm) == "checkbox" then Bool(ConvertToBoolean(v))
    else ConvertToDBDateFormatByLength(lib, v, Trim(fm.value))
  }

  type Converter = (Value, FormatMapping) -> Value

  function ConvertV2(lib: DateLib): Converter {
    (v, fm) => FormattedV2(lib, v, fm)
  }

  function ConvertV1(lib: DateLib): Converter {
    (v, fm) => FormattedV1(lib, v, fm)
  }

  /** The format mappings of one mapped key applied to a line, in order: each mapping of that
      key reads the cell as it stands and writes its conversion; when `guarded` (2.x), only
      a truthy cell is converted. */
  function ApplyFormats(convert: Converter, guarded: bool, line: Row, key: string,
                        formats: seq<FormatMapping>): Row
    decreases |formats|
  {
    if formats == [] then line
    else
      var prev := ApplyFormats(convert, guarded, line, key, formats[..|formats| - 1]);
      var fm := formats[|formats| - 1];
      if fm.key == key && (!guarded || Truthy(Field(prev, key))) then
        prev[key := convert(Field(prev, key), fm)]
      else prev
  }

  /** One line formatted: the mapped keys in order. */
  function FormatLine(convert: Converter, guarded: bool, line: Row, keys: seq<string>,
                      formats: seq<FormatMapping>): Row
    decreases |keys|
  {
    if keys == [] then line
    else
      var prev := FormatLine(convert, guarded, line, keys[..|keys| - 1], formats);
      ApplyFormats(convert, guarded, prev, keys[|keys| - 1], formats)
  }

  /** `formatCSVRecordValues` of 2.2 and 2.1 on one record. */
  function FormatLineV2(lib: DateLib, line: Row, keys: seq<string>, formats: seq<FormatMapping>): Row {
    FormatLine(ConvertV2(lib), true, line, keys, formats)
  }

  /** The formatting step of the 1.0 `processRecords` on one record. */
  function FormatLineV1(lib: DateLib, line: Row, keys: seq<string>, formats: seq<FormatMapping>): Row {
    FormatLine(ConvertV1(lib), false, line, keys, formats)
  }

  /** Every record formatted by 1.0. */
  function FormatLinesV1(lib: DateLib, lines: seq<Row>, keys: seq<string>, formats: seq<FormatMapping>): (r: seq<Row>)
    ensures |r| == |lines| && forall i :: 0 <= i < |lines| ==> r[i] == FormatLineV1(lib, lines[i], keys, formats)
  {
    seq(|lines|, i requires 0 <= i < |lines| => FormatLineV1(lib, lines[i], keys, formats))
  }

  /** The record at `i` formatted in place: the nested loops over the mapped keys and the
      format mappings. */
  method FormatRecordAt(convert: Converter, guarded: bool, records: array<Row>, i: nat,
                        keys: seq<string>, formats: seq<FormatMapping>)
    requires i < records.Length
    modifies records
    ensures records[i] == FormatLine(convert, guarded, old(records[i]), keys, formats)
    ensures forall p :: 0 <= p < records.Length && p != i ==> records[p] == old(records[p])
  {
    for k := 0 to |keys|
      invariant records[i] == FormatLine(convert, guarded, old(records[i]), keys[..k], formats)
      invariant forall p :: 0 <= p < records.Length && p != i ==> records[p] == old(records[p])
    {
      var key := keys[k];
      ghost var before := records[i];
      for j := 0 to |formats|
        invariant records[i] == ApplyFormats(convert, guarded, before, key, formats[..j])
        invariant forall p :: 0 <= p < records.Length && p != i ==> records[p] == old(records[p])
      {
        var fm := formats[j];
        var cell := Field(records[i], key);
        if fm.key == key && (!guarded || Truthy(cell)) {
          records[i] := records[i][key := convert(cell, fm)];
        }
        assert formats[..j + 1][..j] == formats[..j];
      }
      assert formats[..|formats|] == formats;
      assert keys[..k + 1][..k] == keys[..k];
    }
    assert keys[..|keys|] == keys;
  }

  /** `formatCSVRecordValues`: every record is formatted in place. The guard on an empty list
      of format mappings changes nothing, since no mapping then matches. */
  method FormatCSVRecordValues(lib: DateLib, records: array<Row>, keys: seq<string>,
                               formats: seq<FormatMapping>)
    modifies records
    ensures forall i :: 0 <= i < records.Length ==> records[i] == FormatLineV2(lib, old(records[i]), keys, formats)
  {
    for i := 0 to records.Length
      invariant forall p :: 0 <= p < i ==> records[p] == FormatLineV2(lib, old(records[p]), keys, formats)
      invariant forall p :: i <= p < records.Length ==> records[p] == old(records[p])
    {
      FormatRecordAt(ConvertV2(lib), true, records, i, keys, formats);
    }
  }

  /** The formats of one key write that key and no other cell. */
  lemma {:induction false} ApplyFormatsFrame(convert: Converter, guarded: bool, line: Row, key: string,
                                             formats: seq<FormatMapping>, c: string)
    requires c != key || forall j :: 0 <= j < |formats| ==> formats[j].key != c
    ensures var r := ApplyFormats(convert, guarded, line, key, formats);
            (c in r <==> c in line) && Field(r, c) == Field(line, c)
    decreases |formats|
  {
    if formats != [] {
      ApplyFormatsFrame(convert, guarded, line, key, formats[..|formats| - 1], c);
    }
  }

  /** A cell that no format mapping names, or whose column no mapping names, is kept. */
  lemma {:induction false} FormatLineFrame(convert: Converter, guarded: bool, line: Row, keys: seq<string>,
                                           formats: seq<FormatMapping>, c: string)
    requires c !in keys || forall j :: 0 <= j < |formats| ==> formats[j].key != c
    ensures var r := FormatLine(convert, guarded, line, keys, formats);
            (c in r <==> c in line) && Field(r, c) == Field(line, c)
    decreases |keys|
  {
    if keys != [] {
      var init := keys[..|keys| - 1];
      assert c !in keys ==> c !in init;
      FormatLineFrame(convert, guarded, line, init, formats, c);
      var prev := FormatLine(convert, guarded, line, init, formats);
      ApplyFormatsFrame(convert, guarded, prev, keys[|keys| - 1], formats, c);
    }
  }

  /** With the guard, a falsy cell is left as it is. */
  lemma {:induction false} ApplyFormatsFalsy(convert: Converter, line: Row, key: string,
                                             formats: seq<FormatMapping>)
    requires !Truthy(Field(line, key))
    ensures ApplyFormats(convert, true, line, key, formats) == line
    decreases |formats|
  {
    if formats != [] {
      ApplyFormatsFalsy(convert, line, key, formats[..|formats| - 1]);
    }
  }

  /** A key with exactly one format mapping is converted once, from the cell as it was
      (unguarded, or guarded with a truthy cell). */
  lemma {:induction false} ApplyFormatsOnce(convert: Converter, guarded: bool, line: Row, key: string,
                                            formats: seq<FormatMapping>, j: nat)
    requires j < |formats| && formats[j].key == key
    requires forall q :: 0 <= q < |formats| && q != j ==> formats[q].key != key
    requires !guarded || Truthy(Field(line, key))
    ensures ApplyFormats(convert, guarded, line, key, formats) == line[key := convert(Field(line, key), formats[j])]
    decreases |formats|
  {
    var init := formats[..|formats| - 1];
    if j < |formats| - 1 {
      ApplyFormatsOnce(convert, guarded, line, key, init, j);
    } else {
      ApplyFormatsFrame(convert, guarded, line, key, init, key);
      assert forall q :: 0 <= q < |init| ==> init[q].key != key;
      ApplyFormatsNone(convert, guarded, line, key, init);
    }
  }

  /** Format mappings of other keys change nothing. */
  lemma {:induction false} ApplyFormatsNone(convert: Converter, guarded: bool, line: Row, key: string,
                                            formats: seq<FormatMapping>)
    requires forall q :: 0 <= q < |formats| ==> formats[q].key != key
    ensures ApplyFormats(convert, guarded, line, key, formats) == line
    decreases |formats|
  {
    if formats != [] {
      ApplyFormatsNone(convert, guarded, line, key, formats[..|formats| - 1]);
    }
  }

  /** A column named by exactly one mapping and exactly one format mapping is converted once
      from its original cell (unguarded, or guarded with a truthy cell). */
  lemma {:induction false} FormatLineOnce(convert: Converter, guarded: bool, line: Row, keys: seq<string>,
                                          formats: seq<FormatMapping>, k: nat, j: nat)
    requires k < |keys| && forall q :: 0 <= q < |keys| && q != k ==> keys[q] != keys[k]
    requires j < |formats| && formats[j].key == keys[k]
    requires forall q :: 0 <= q < |formats| && q != j ==> formats[q].key != keys[k]
    requires !guarded || Truthy(Field(line, keys[k]))
    ensures var r := FormatLine(convert, guarded, line, keys, formats);
            keys[k] in r && r[keys[k]] == convert(Field(line, keys[k]), formats[j])
    decreases |keys|
  {
    var key := keys[k];
    var init := keys[..|keys| - 1];
    var prev := FormatLine(convert, guarded, line, init, formats);
    if k == |keys| - 1 {
      assert key !in init;
      FormatLineFrame(convert, guarded, line, init, formats, key);
      ApplyFormatsOnce(convert, guarded, prev, key, formats, j);
    } else {
      FormatLineOnce(convert, guarded, line, init, formats, k, j);
      ApplyFormatsFrame(convert, guarded, prev, keys[|keys| - 1], formats, key);
    }
  }

  /** 2.x leaves an absent column absent. */
  lemma AbsentColumnV2(lib: DateLib, line: Row, key: string, formats: seq<FormatMapping>)
    requires key !in line
    ensures key !in FormatLineV2(lib, line, [key], formats)
  {
    assert [key][..0] == [];
    assert FormatLine(ConvertV2(lib), true, line, [], formats) == line;
    ApplyFormatsFalsy(ConvertV2(lib), line, key, formats);
  }

  /** 1.0 formats an absent column all the same, its cell reading as `undefined`. As written
      the checkbox conversion of that cell throws; with the intended conversion a checkbox
      column becomes `false`. */
  lemma AbsentColumnV1(lib: DateLib, line: Row, key: string, fm: FormatMapping)
    requires key !in line && fm.key == key
    ensures ConvertToBooleanAsWritten(Field(line, key)).Err?
    ensures var r := FormatLineV1(lib, line, [key], [fm]);
            key in r && (Kind(fm) == "checkbox" ==> r[key] == Bool(false))
  {
    assert [key][..0] == [];
    assert FormatLine(ConvertV1(lib), false, line, [], [fm]) == line;
    ApplyFormatsOnce(ConvertV1(lib), false, line, key, [fm], 0);
    assert !ConvertToBoolean(Undef);
  }

  /** 2.x re-reads the cell for every format mapping: a second checkbox mapping of the same
      column sees the `true` or `false` the first one wrote, and keeps it. */
  lemma CheckboxTwice(lib: DateLib, line: Row, key: string, fm: FormatMapping)
    requires fm.key == key && Kind(fm) == "checkbox" && Truthy(Field(line, key))
    ensures ApplyFormats(ConvertV2(lib), true, line, key, [fm, fm])
            == line[key := Bool(ConvertToBoolean(Field(line, key)))]
  {
    var conv := ConvertV2(lib);
    ApplyFormatsOnce(conv, true, line, key, [fm], 0);
    var once := ApplyFormats(conv, true, line, key, [fm]);
    ApplyFormatsAgain(conv, true, line, key, fm);
    CheckboxStable(lib, once, key, fm, ConvertToBoolean(Field(line, key)));
  }

  /** A cell that holds a boolean is left as it is by a checkbox mapping. */
  lemma CheckboxStable(lib: DateLib, once: Row, key: string, fm: FormatMapping, b: bool)
    requires fm.key == key && Kind(fm) == "checkbox" && key in once && once[key] == Bool(b)
    ensures (if Truthy(Field(once, key)) then once[key := ConvertV2(lib)(Field(once, key), fm)] else once) == once
  {
    if b {
      TrueStaysTrue();
      assert ConvertV2(lib)(Bool(true), fm) == Bool(true);
    }
  }

  /** A second mapping `fm` applied after the first. */
  lemma ApplyFormatsAgain(convert: Converter, guarded: bool, line: Row, key: string, fm: FormatMapping)
    ensures var once := ApplyFormats(convert, guarded, line, key, [fm]);
            ApplyFormats(convert, guarded, line, key, [fm, fm])
            == if fm.key == key && (!guarded || Truthy(Field(once, key))) then once[key := convert(Field(once, key), fm)]
               else once
  {
    assert [fm, fm][..1] == [fm];
  }

  lemma TrueStaysTrue()
    ensures ConvertToBoolean(Bool(true))
  {
    var t := ToStr(Bool(true));
    assert t == "true";
    assert forall i :: 0 <= i < |t| ==> !IsUpper(t[i]);
    assert ToLower(t) == t;
    TrimOfUntrimmed(t);
  }
}
