/** The shared helpers of the actions: `snakeToCamel`, the date conversion to the database
    text format, the checkbox conversion and the error helper. Date parsing and ISO
    formatting belong to the date-fns library and enter the model as a `DateLib` parameter. */
module Helpers {
  import opened Wrappers
  import opened Text
  import opened Numbers
  import opened Js
  import opened Seqs

  // ---------------------------------------------------------------------------
  // snakeToCamel
  // ---------------------------------------------------------------------------

  /** The characters the second pattern treats as part of a word: letters, digits and `!`. */
  predicate IsWordChar(c: char) {
    IsAlnum(c) || c == '!'
  }

  /** First pass, `/_[0-9]/g`: a `!` is put before every underscore followed by a digit. */
  function MarkDigitUnderscores(s: string): (r: string)
    decreases |s|
  {
    if s == [] then []
    else if |s| >= 2 && s[0] == '_' && IsDigit(s[1]) then "!_" + [s[1]] + MarkDigitUnderscores(s[2..])
    else [s[0]] + MarkDigitUnderscores(s[1..])
  }

  /** The length of the run of non-word characters at the start of `s`. */
  function NonWordRun(s: string): (n: nat)
    ensures n <= |s|
    ensures forall i :: 0 <= i < n ==> !IsWordChar(s[i])
    ensures n < |s| ==> IsWordChar(s[n])
  {
    if s != [] && !IsWordChar(s[0]) then 1 + NonWordRun(s[1..]) else 0
  }

  /** The largest `k` with `1 <= k <= hi` such that `s[k]` is not a line terminator, or 0. */
  function LastMatchable(s: string, hi: nat): (k: nat)
    requires hi < |s|
    ensures k <= hi
    ensures k >= 1 ==> !IsLineTerminator(s[k])
    ensures forall j :: k < j <= hi ==> IsLineTerminator(s[j])
  {
    if hi == 0 then 0
    else if !IsLineTerminator(s[hi]) then hi
    else LastMatchable(s, hi - 1)
  }

  /** Second pass, `/[^a-zA-Z0-9!]+(.)/g` replaced by the captured character upper-cased. The
      greedy run gives back characters until `.` (anything but a line terminator) can match. */
  function CamelizeRuns(s: string): (r: string)
    decreases |s|
  {
    if s == [] then []
    else if IsWordChar(s[0]) then [s[0]] + CamelizeRuns(s[1..])
    else
      var run := NonWordRun(s);
      var k := if run < |s| then run else LastMatchable(s, run - 1);
      if k >= 1 then [ToUpperChar(s[k])] + CamelizeRuns(s[k + 1..])
      else [s[0]] + CamelizeRuns(s[1..])
  }

  /** Third pass, `/[!]/g`: every `!` becomes an underscore. */
  function BangsToUnderscores(s: string): (r: string)
    ensures |r| == |s|
    ensures forall i :: 0 <= i < |s| ==> r[i] == (if s[i] == '!' then '_' else s[i])
  {
    if s == [] then [] else [if s[0] == '!' then '_' else s[0]] + BangsToUnderscores(s[1..])
  }

  /** `snakeToCamel(str)`. */
  function SnakeToCamel(s: string): (r: string)
    ensures forall i :: 0 <= i < |r| ==> r[i] != '!'
  {
    BangsToUnderscores(CamelizeRuns(MarkDigitUnderscores(s)))
  }

  predicate AllAlnum(s: string) {
    forall i :: 0 <= i < |s| ==> IsAlnum(s[i])
  }

  /** A snake-case word: letters and digits only, not empty. */
  predicate IsWord(w: string) {
    w != [] && AllAlnum(w)
  }

  predicate AllWords(ws: seq<string>) {
    forall i :: 0 <= i < |ws| ==> IsWord(ws[i])
  }

  function UpperFirst(w: string): string
    requires w != []
  {
    [ToUpperChar(w[0])] + w[1..]
  }

  /** How a word after an underscore appears in camel case: a word that starts with a digit
      keeps its underscore, any other word loses it and has its first letter upper-cased. */
  function CamelPiece(w: string): string
    requires w != []
  {
    if IsDigit(w[0]) then "_" + w else UpperFirst(w)
  }

  /** The camel-case form of the words that followed the first one. */
  function CamelTail(ws: seq<string>): string
    requires AllWords(ws)
  {
    if ws == [] then [] else CamelPiece(ws[0]) + CamelTail(ws[1..])
  }

  /** The words after the first, each with the underscore that precedes it. */
  function UnderscoreTail(ws: seq<string>): string {
    if ws == [] then [] else "_" + ws[0] + UnderscoreTail(ws[1..])
  }

  lemma {:induction false} JoinUnderscore(ws: seq<string>)
    requires |ws| >= 1
    ensures Join(ws, "_") == ws[0] + UnderscoreTail(ws[1..])
    decreases |ws|
  {
    if |ws| >= 2 {
      JoinUnderscore(ws[1..]);
      assert ws[1..][1..] == ws[2..];
    }
  }

  lemma {:induction false} MarkWord(w: string, t: string)
    requires AllAlnum(w)
    ensures MarkDigitUnderscores(w + t) == w + MarkDigitUnderscores(t)
    decreases |w|
  {
    if w != [] {
      var s := w + t;
      assert s[0] == w[0] && IsAlnum(s[0]) && s[0] != '_';
      assert s[1..] == w[1..] + t;
      MarkWord(w[1..], t);
      assert MarkDigitUnderscores(s) == [s[0]] + MarkDigitUnderscores(s[1..]);
      assert [w[0]] + w[1..] == w;
    } else {
      assert w + t == t;
    }
  }

  /** The first pass after the first word: a `!` before each word that starts with a digit. */
  function MarkedTail(ws: seq<string>): string
    requires AllWords(ws)
  {
    if ws == [] then [] else (if IsDigit(ws[0][0]) then "!_" else "_") + ws[0] + MarkedTail(ws[1..])
  }

  lemma MarkUnderscoreWord(w: string, t: string)
    requires IsWord(w)
    ensures MarkDigitUnderscores("_" + w + t) == (if IsDigit(w[0]) then "!_" else "_") + w + MarkDigitUnderscores(t)
  {
    var s := "_" + w + t;
    assert s[0] == '_' && s[1] == w[0];
    if IsDigit(w[0]) {
      assert s[2..] == w[1..] + t;
      MarkWord(w[1..], t);
      assert MarkDigitUnderscores(s) == "!_" + [w[0]] + (w[1..] + MarkDigitUnderscores(t));
      Regroup("!_" + [w[0]], w[1..], MarkDigitUnderscores(t));
      assert "!_" + [w[0]] + w[1..] == "!_" + w;
    } else {
      assert s[1..] == w + t;
      MarkWord(w, t);
      assert MarkDigitUnderscores(s) == "_" + (w + MarkDigitUnderscores(t));
      Regroup("_", w, MarkDigitUnderscores(t));
    }
  }

  lemma {:induction false} MarkTail(ws: seq<string>)
    requires AllWords(ws)
    ensures MarkDigitUnderscores(UnderscoreTail(ws)) == MarkedTail(ws)
    decreases |ws|
  {
    if ws != [] {
      MarkTail(ws[1..]);
      assert IsWord(ws[0]);
      MarkUnderscoreWord(ws[0], UnderscoreTail(ws[1..]));
      assert UnderscoreTail(ws) == "_" + ws[0] + UnderscoreTail(ws[1..]);
    }
  }

  lemma {:induction false} CamelizeWord(w: string, t: string)
    requires forall i :: 0 <= i < |w| ==> IsWordChar(w[i])
    ensures CamelizeRuns(w + t) == w + CamelizeRuns(t)
    decreases |w|
  {
    if w != [] {
      var s := w + t;
      assert s[0] == w[0] && IsWordChar(s[0]);
      assert s[1..] == w[1..] + t;
      CamelizeWord(w[1..], t);
      assert CamelizeRuns(s) == [s[0]] + CamelizeRuns(s[1..]);
      assert [w[0]] + w[1..] == w;
    } else {
      assert w + t == t;
    }
  }

  /** The second pass after the first word. */
  function CamelizedTail(ws: seq<string>): string
    requires AllWords(ws)
  {
    if ws == [] then [] else (if IsDigit(ws[0][0]) then "!" else "") + UpperFirst(ws[0]) + CamelizedTail(ws[1..])
  }

  /** An underscore followed by a word is one run of length one, replaced by the upper-cased
      first character of the word. */
  lemma CamelizeUnderscore(w: string, t: string)
    requires IsWord(w)
    ensures CamelizeRuns("_" + w + t) == UpperFirst(w) + CamelizeRuns(t)
  {
    var s := "_" + w + t;
    assert s[0] == '_' && s[1] == w[0] && IsWordChar(s[1]);
    assert s[1..] == w + t;
    assert NonWordRun(s[1..]) == 0;
    assert NonWordRun(s) == 1;
    assert CamelizeRuns(s) == [ToUpperChar(s[1])] + CamelizeRuns(s[2..]);
    assert s[2..] == w[1..] + t;
    CamelizeWord(w[1..], t);
  }

  lemma CamelizeBang(t: string)
    ensures CamelizeRuns("!" + t) == "!" + CamelizeRuns(t)
  {
    CamelizeWord("!", t);
  }

  lemma CamelizeMarkedDigit(w: string, t: string)
    requires IsWord(w)
    ensures CamelizeRuns("!_" + w + t) == "!" + UpperFirst(w) + CamelizeRuns(t)
  {
    var u := "_" + w + t;
    assert "!_" + w + t == "!" + u;
    CamelizeBang(u);
    CamelizeUnderscore(w, t);
  }

  lemma {:induction false} CamelizeTail(ws: seq<string>)
    requires AllWords(ws)
    ensures CamelizeRuns(MarkedTail(ws)) == CamelizedTail(ws)
    decreases |ws|
  {
    if ws != [] {
      var w := ws[0];
      var rest := MarkedTail(ws[1..]);
      var mark := if IsDigit(w[0]) then "!_" else "_";
      assert MarkedTail(ws) == mark + w + rest;
      CamelizeTail(ws[1..]);
      if IsDigit(w[0]) {
        CamelizeMarkedDigit(w, rest);
      } else {
        CamelizeUnderscore(w, rest);
      }
    }
  }

  lemma BangsOfWord(w: string)
    requires AllAlnum(w)
    ensures BangsToUnderscores(w) == w
  {
  }

  lemma BangsAppend(a: string, b: string)
    ensures BangsToUnderscores(a + b) == BangsToUnderscores(a) + BangsToUnderscores(b)
  {
  }

  /** The third pass on one camelized word: its `!` becomes the underscore it had. */
  lemma BangsOfPiece(w: string)
    requires IsWord(w)
    ensures BangsToUnderscores((if IsDigit(w[0]) then "!" else "") + UpperFirst(w)) == CamelPiece(w)
  {
    if IsDigit(w[0]) {
      BangsOfDigitWord(w);
    } else {
      BangsOfUpperFirst(w);
    }
  }

  lemma BangsOfDigitWord(w: string)
    requires IsWord(w) && IsDigit(w[0])
    ensures BangsToUnderscores("!" + UpperFirst(w)) == "_" + w
  {
    assert UpperFirst(w) == w;
    BangsAppend("!", w);
    BangsOfWord(w);
    assert BangsToUnderscores("!") == "_";
  }

  lemma BangsOfUpperFirst(w: string)
    requires IsWord(w)
    ensures BangsToUnderscores(UpperFirst(w)) == UpperFirst(w)
  {
    var c := ToUpperChar(w[0]);
    assert c != '!';
    BangsAppend([c], w[1..]);
    assert AllAlnum(w[1..]);
    BangsOfWord(w[1..]);
    assert BangsToUnderscores([c]) == [c];
  }

  lemma {:induction false} BangsTail(ws: seq<string>)
    requires AllWords(ws)
    ensures BangsToUnderscores(CamelizedTail(ws)) == CamelTail(ws)
    decreases |ws|
  {
    if ws != [] {
      var w := ws[0];
      assert IsWord(w);
      var head := (if IsDigit(w[0]) then "!" else "") + UpperFirst(w);
      var rest := CamelizedTail(ws[1..]);
      assert CamelizedTail(ws) == head + rest;
      BangsTail(ws[1..]);
      BangsAppend(head, rest);
      BangsOfPiece(w);
    }
  }

  /** `snakeToCamel` on snake-case words joined by underscores keeps the first word, upper-cases
      the first letter of every later word and drops its underscore; a later word that starts
      with a digit keeps its underscore. */
  lemma SnakeToCamelWords(ws: seq<string>)
    requires |ws| >= 1
    requires AllWords(ws)
    ensures SnakeToCamel(Join(ws, "_")) == ws[0] + CamelTail(ws[1..])
  {
    JoinUnderscore(ws);
    var tail := ws[1..];
    assert AllWords(tail);
    MarkWord(ws[0], UnderscoreTail(tail));
    MarkTail(tail);
    CamelizeWord(ws[0], MarkedTail(tail));
    CamelizeTail(tail);
    BangsAppend(ws[0], CamelizedTail(tail));
    BangsOfWord(ws[0]);
    BangsTail(tail);
  }

  /** A name without underscores or other separators is left as it is. */
  lemma SnakeToCamelOfWord(w: string)
    requires IsWord(w)
    ensures SnakeToCamel(w) == w
  {
    assert w == w + [];
    MarkWord(w, []);
    CamelizeWord(w, []);
    BangsOfWord(w);
  }

  // ---------------------------------------------------------------------------
  // Dates
  // ---------------------------------------------------------------------------

  /** The date-fns functions the helpers call. `parse(text, format)` gives the ISO text
      (`formatISO`) of the parsed date, or `None` when the result is not a valid date;
      `isoOfTime(t)` is `formatISO` of the date with time value `t`. The reference date of
      `parse` is the current clock, folded into the function. */
  datatype DateLib = DateLib(parse: (string, string) -> Option<string>, isoOfTime: real -> string)

  /** `returnDateTimeValue(dateString, dateType)`: the time, date or date-and-time part of a
      database date text, chosen by the lower-cased, trimmed type. */
  function ReturnDateTimeValue(dateString: string, dateType: string): (r: string)
    ensures |r| <= |dateString|
  {
    var kind := Trim(ToLower(dateType));
    if kind == "time" then Substr(dateString, 11, 8)
    else if kind == "date" then Substring(dateString, 0, 10)
    else if kind == "datetime" then Substring(dateString, 0, 19)
    else dateString
  }

  /** A database date text: ten date characters, a space, eight time characters, and a zone. */
  predicate IsDbDateText(date: string, time: string) {
    |date| == 10 && |time| == 8
  }

  /** On `date + " " + time + zone` each type selects its part of the text, whatever its case
      and surrounding white space. */
  lemma ReturnDateTimeParts(date: string, time: string, zone: string, dateType: string)
    requires IsDbDateText(date, time)
    ensures Trim(ToLower(dateType)) == "date" ==> ReturnDateTimeValue(date + " " + time + zone, dateType) == date
    ensures Trim(ToLower(dateType)) == "time" ==> ReturnDateTimeValue(date + " " + time + zone, dateType) == time
    ensures Trim(ToLower(dateType)) == "datetime" ==>
              ReturnDateTimeValue(date + " " + time + zone, dateType) == date + " " + time
  {
    var s := date + " " + time + zone;
    assert s[0..10] == date;
    assert s[11..19] == time;
    assert s[0..19] == date + " " + time;
  }

  /** `convertToDBDateFormat(dateString, format, dateType)` of the shared helpers: a valid date
      or time value is formatted as it is, anything else is parsed from its trimmed text with
      the trimmed format; an invalid result is `null`, a valid one its ISO text with the first
      `T` made a space, cut to the date type. The helper calls `toString` on its argument, so
      callers pass neither `undefined` nor `null`. */
  function ConvertToDBDateFormat(lib: DateLib, value: Value, format: string, dateType: string): (r: Value)
    requires !IsNullish(value)
    ensures r.Null? || r.Str?
  {
    var iso :=
      match value
      case Number(Fin(t)) => Some(lib.isoOfTime(t))
      case Date(Fin(t), _) => Some(lib.isoOfTime(t))
      case _ => lib.parse(Trim(ToStr(value)), Trim(format));
    match iso
    case None => Null
    case Some(text) => Str(ReturnDateTimeValue(ReplaceFirst(text, 'T', ' '), dateType))
  }

  /** When the parsed ISO text is `date T time zone`, the database text is the part the date
      type names, with a space between date and time. */
  lemma ConvertToDBDateFormatOfIso(lib: DateLib, value: Value, format: string, dateType: string,
                                   date: string, time: string, zone: string)
    requires value.Str? && IsDbDateText(date, time) && 'T' !in date
    requires lib.parse(Trim(value.s), Trim(format)) == Some(date + "T" + time + zone)
    ensures Trim(ToLower(dateType)) == "datetime" ==>
              ConvertToDBDateFormat(lib, value, format, dateType) == Str(date + " " + time)
    ensures Trim(ToLower(dateType)) == "date" ==> ConvertToDBDateFormat(lib, value, format, dateType) == Str(date)
    ensures Trim(ToLower(dateType)) == "time" ==> ConvertToDBDateFormat(lib, value, format, dateType) == Str(time)
  {
    ReplaceFirstAt(date, 'T', ' ', time + zone);
    assert date + "T" + time + zone == date + ['T'] + (time + zone);
    assert date + [' '] + (time + zone) == date + " " + time + zone;
    ReturnDateTimeParts(date, time, zone, dateType);
  }

  /** The date conversion of the 1.0 and 2.x import actions: parse with the format as given,
      and cut the ISO text to the length of the format. */
  function ConvertToDBDateFormatByLength(lib: DateLib, value: Value, format: string): (r: Value)
    ensures r.Null? || (r.Str? && |r.s| <= |format|)
  {
    match lib.parse(ToStr(value), format)
    case None => Null
    case Some(text) => Str(Substring(ReplaceFirst(text, 'T', ' '), 0, |format|))
  }

  // ---------------------------------------------------------------------------
  // Checkbox values
  // ---------------------------------------------------------------------------

  /** The text `convertToBoolean` inspects: the lower-cased, trimmed text of a truthy value. */
  function CheckText(value: Value): string {
    if Truthy(value) then Trim(ToLower(ToStr(value))) else ""
  }

  const JsonEndError := "Unexpected end of JSON input"

  /** `convertToBoolean(value)` as written: the texts "true"/"1" and "false"/"0" are parsed as
      JSON, any other non-empty text is `true`, and the empty text reaches `JSON.parse("")`,
      which throws. */
  function ConvertToBooleanAsWritten(value: Value): (r: Result<bool>)
    ensures r.Err? <==> CheckText(value) == ""
  {
    var t := CheckText(value);
    if t == "true" || t == "1" then Ok(true)
    else if t == "false" || t == "0" then Ok(false)
    else if t == "" then Err(JsonEndError)
    else Ok(true)
  }

  lemma CheckTextBlank()
    ensures CheckText(Str(" ")) == "" && CheckText(Str("")) == "" && CheckText(Null) == ""
  {
    assert ToStr(Str(" ")) == " ";
    assert ToLower(" ") == " ";
    assert Trim(" ") == "";
  }

  /** A falsy value, or one whose text is only white space, makes the helper throw. */
  lemma ConvertToBooleanBlankThrows()
    ensures ConvertToBooleanAsWritten(Str("")).Err?
    ensures ConvertToBooleanAsWritten(Str(" ")).Err?
    ensures ConvertToBooleanAsWritten(Null).Err?
  {
    CheckTextBlank();
  }

  /** The checkbox conversion as intended: `false` exactly for blank text and the texts
      "false" and "0", in any case and with surrounding white space. */
  function ConvertToBoolean(value: Value): (r: bool)
    ensures r <==> CheckText(value) !in {"", "false", "0"}
  {
    var t := CheckText(value);
    !(t == "" || t == "false" || t == "0")
  }

  /** The intended conversion agrees with the helper wherever the helper returns. */
  lemma ConvertToBooleanAgrees(value: Value)
    requires ConvertToBooleanAsWritten(value).Ok?
    ensures ConvertToBooleanAsWritten(value) == Ok(ConvertToBoolean(value))
  {
  }

  /** Case and surrounding white space do not matter to the inspected text. */
  lemma CheckTextPadded(p: string, w: string, q: string)
    requires AllWhite(p) && AllWhite(q)
    requires w != [] && !IsWhite(w[0]) && !IsWhite(w[|w| - 1])
    ensures CheckText(Str(p + w + q)) == ToLower(w)
  {
    ToLowerPadded(p, w, q);
    TrimPadded(p, ToLower(w), q);
  }

  /** A text with something besides white space gives `false` exactly when its lower-cased
      trimmed form is "false" or "0", and the helper as written agrees. */
  lemma ConvertToBooleanOfText(p: string, w: string, q: string)
    requires AllWhite(p) && AllWhite(q)
    requires w != [] && !IsWhite(w[0]) && !IsWhite(w[|w| - 1])
    ensures ConvertToBoolean(Str(p + w + q)) <==> ToLower(w) != "false" && ToLower(w) != "0"
    ensures ConvertToBooleanAsWritten(Str(p + w + q)) == Ok(ConvertToBoolean(Str(p + w + q)))
  {
    var v := Str(p + w + q);
    CheckTextPadded(p, w, q);
    assert CheckText(v) != "";
    ConvertToBooleanAgrees(v);
  }

  // ---------------------------------------------------------------------------
  // Errors
  // ---------------------------------------------------------------------------

  /** What is handed to an error helper: a text, an Error with its message, or the list of
      errors a GraphQL response carried, given by its JSON text. */
  datatype Thrown = Text(text: string) | Failure(message: string) | Errors(json: string)

  /** The message `throwError` of the shared helpers throws: "Error: " and the Error's message
      when it has one, or else the JSON text of what it was given. */
  function ThrowErrorMessage(e: Thrown): (m: string)
    ensures |m| > 7 && m[..7] == "Error: "
  {
    match e
    case Text(t) => "Error: " + JsonQuote(t)
    case Failure(msg) => "Error: " + (if msg != [] then msg else "{}")
    case Errors(json) => "Error: " + (if json != [] then json else "undefined")
  }
}
