/** The JavaScript values the actions handle, and the language operations on them that the
    actions rely on: truthiness, `typeof`, conversion to string and to number, strict and
    loose equality, relational comparison, `+`, `Math.min`/`Math.max`, property access and
    `JSON.stringify` of a string. */
module Js {
  import opened Wrappers
  import opened Text
  import opened Numbers

  /** A JavaScript value. A `Date` carries its time value (milliseconds since the epoch,
      `NaN` for an invalid date) and the text its `toString` gives. An object is the map of its
      own enumerable properties; an array is the sequence of its elements. */
  datatype Value =
    | Undef
    | Null
    | Bool(b: bool)
    | Number(n: Num)
    | Str(s: string)
    | Date(time: Num, display: string)
    | Obj(fields: map<string, Value>)
    | Arr(items: seq<Value>)

  function Int(i: int): Value {
    Number(Fin(i as real))
  }

  /** `Boolean(v)`. */
  predicate Truthy(v: Value) {
    match v
    case Undef => false
    case Null => false
    case Bool(b) => b
    case Number(n) => (n.Fin? && n.r != 0.0) || n.PosInf? || n.NegInf?
    case Str(s) => s != []
    case _ => true
  }

  /** `typeof v === "object"`, which holds for `null` too. */
  predicate IsObjectType(v: Value) {
    v.Null? || v.Date? || v.Obj? || v.Arr?
  }

  /** `v === undefined || v === null`. */
  predicate IsNullish(v: Value) {
    v.Undef? || v.Null?
  }

  /** `a ?? b`. */
  function Coalesce(a: Value, b: Value): (r: Value)
    ensures IsNullish(a) ==> r == b
    ensures !IsNullish(a) ==> r == a
  {
    if IsNullish(a) then b else a
  }

  // ---------------------------------------------------------------------------
  // Conversions
  // ---------------------------------------------------------------------------

  /** `String(v)`, which is also what a template literal writes for `v`. */
  function ToStr(v: Value): string
    decreases v
  {
    match v
    case Undef => "undefined"
    case Null => "null"
    case Bool(b) => if b then "true" else "false"
    case Number(n) => NumToString(n)
    case Str(s) => s
    case Date(_, display) => display
    case Obj(_) => "[object Object]"
    case Arr(items) => JoinValues(items, ",")
  }

  /** `items.join(sep)`: `undefined` and `null` elements are written as empty text. */
  function JoinValues(items: seq<Value>, sep: string): string
    decreases items
  {
    if items == [] then []
    else
      var first := if IsNullish(items[0]) then [] else ToStr(items[0]);
      if |items| == 1 then first else first + sep + JoinValues(items[1..], sep)
  }

  /** The primitive an object converts to under the default hint (`==` and `+`); a `Date`
      converts to its text. Primitives convert to themselves. */
  function ToPrimitive(v: Value): (p: Value)
    ensures !IsObjectType(p) || p.Null?
  {
    match v
    case Date(_, display) => Str(display)
    case Obj(_) => Str(ToStr(v))
    case Arr(_) => Str(ToStr(v))
    case _ => v
  }

  /** The primitive an object converts to under the number hint (`<`, `Number`); a `Date`
      converts to its time value. */
  function ToPrimitiveNumber(v: Value): (p: Value)
    ensures !IsObjectType(p) || p.Null?
  {
    match v
    case Date(t, _) => Number(t)
    case Obj(_) => Str(ToStr(v))
    case Arr(_) => Str(ToStr(v))
    case _ => v
  }

  /** `Number(v)`. */
  function ToNumber(v: Value): Num {
    match ToPrimitiveNumber(v)
    case Undef => NaN
    case Null => Fin(0.0)
    case Bool(b) => Fin(if b then 1.0 else 0.0)
    case Number(n) => n
    case Str(s) => StringToNumber(s)
    case _ => NaN
  }

  // ---------------------------------------------------------------------------
  // Equality and comparison
  // ---------------------------------------------------------------------------

  /** Numeric equality: `NaN` equals nothing. */
  predicate NumEq(x: Num, y: Num) {
    !x.NaN? && x == y
  }

  /** The two values have the same type in the sense of `typeof` (all objects alike). */
  predicate SameType(a: Value, b: Value) {
    (a.Undef? && b.Undef?) || (a.Null? && b.Null?) || (a.Bool? && b.Bool?)
    || (a.Number? && b.Number?) || (a.Str? && b.Str?)
    || ((a.Date? || a.Obj? || a.Arr?) && (b.Date? || b.Obj? || b.Arr?))
  }

  /** `a === b`. Objects compare by reference; two object values met by the actions are
      always distinct references, so an object is strictly equal to nothing. */
  predicate StrictEq(a: Value, b: Value) {
    match (a, b)
    case (Undef, Undef) => true
    case (Null, Null) => true
    case (Bool(x), Bool(y)) => x == y
    case (Number(x), Number(y)) => NumEq(x, y)
    case (Str(x), Str(y)) => x == y
    case _ => false
  }

  /** SameValueZero, the equality of `includes`: `===` except that `NaN` matches `NaN`. */
  predicate SameValueZero(a: Value, b: Value) {
    StrictEq(a, b) || (a.Number? && b.Number? && a.n.NaN? && b.n.NaN?)
  }

  /** `xs.includes(v)`, which compares with SameValueZero. */
  function Includes(xs: seq<Value>, v: Value): (r: bool)
    ensures r <==> exists i :: 0 <= i < |xs| && SameValueZero(xs[i], v)
  {
    if xs == [] then false
    else SameValueZero(xs[0], v) || Includes(xs[1..], v)
  }

  function EqRank(v: Value): nat {
    if v.Date? || v.Obj? || v.Arr? then 2 else if v.Bool? then 1 else 0
  }

  /** `a == b`, the abstract equality comparison. */
  predicate LooseEq(a: Value, b: Value)
    decreases EqRank(a) + EqRank(b)
  {
    if SameType(a, b) then StrictEq(a, b)
    else if IsNullish(a) || IsNullish(b) then IsNullish(a) && IsNullish(b)
    else if a.Number? && b.Str? then NumEq(a.n, StringToNumber(b.s))
    else if a.Str? && b.Number? then NumEq(StringToNumber(a.s), b.n)
    else if a.Bool? then LooseEq(Number(ToNumber(a)), b)
    else if b.Bool? then LooseEq(a, Number(ToNumber(b)))
    else if (a.Date? || a.Obj? || a.Arr?) && (b.Number? || b.Str?) then LooseEq(ToPrimitive(a), b)
    else if (b.Date? || b.Obj? || b.Arr?) && (a.Number? || a.Str?) then LooseEq(a, ToPrimitive(b))
    else false
  }

  /** Strict equality implies loose equality. */
  lemma StrictImpliesLoose(a: Value, b: Value)
    requires StrictEq(a, b)
    ensures LooseEq(a, b)
  {
  }

  /** Loose equality is symmetric. */
  lemma {:induction false} LooseEqSymmetric(a: Value, b: Value)
    ensures LooseEq(a, b) == LooseEq(b, a)
    decreases EqRank(a) + EqRank(b)
  {
    if SameType(a, b) || IsNullish(a) || IsNullish(b) {
    } else if a.Bool? {
      LooseEqSymmetric(Number(ToNumber(a)), b);
    } else if b.Bool? {
      LooseEqSymmetric(a, Number(ToNumber(b)));
    } else if (a.Date? || a.Obj? || a.Arr?) && (b.Number? || b.Str?) {
      LooseEqSymmetric(ToPrimitive(a), b);
    } else if (b.Date? || b.Obj? || b.Arr?) && (a.Number? || a.Str?) {
      LooseEqSymmetric(a, ToPrimitive(b));
    }
  }

  /** `x < y` on numbers; `None` is the undefined outcome of a comparison with `NaN`. */
  function NumLess(x: Num, y: Num): Option<bool> {
    if x.NaN? || y.NaN? then None
    else if x == y then Some(false)
    else if x.NegInf? || y.PosInf? then Some(true)
    else if x.PosInf? || y.NegInf? then Some(false)
    else Some(x.r < y.r)
  }

  /** The abstract relational comparison `a < b`: two strings compare by code points, anything
      else as numbers; `None` stands for the undefined outcome. */
  function LessThan(a: Value, b: Value): Option<bool> {
    var pa := ToPrimitiveNumber(a);
    var pb := ToPrimitiveNumber(b);
    if pa.Str? && pb.Str? then Some(StrLess(pa.s, pb.s))
    else NumLess(ToNumber(pa), ToNumber(pb))
  }

  /** `a < b`, `a > b`, `a <= b`, `a >= b`: an undefined outcome is `false` for all four. */
  predicate Lt(a: Value, b: Value) { LessThan(a, b) == Some(true) }
  predicate Gt(a: Value, b: Value) { LessThan(b, a) == Some(true) }
  predicate Le(a: Value, b: Value) { LessThan(b, a) == Some(false) }
  predicate Ge(a: Value, b: Value) { LessThan(a, b) == Some(false) }

  /** On numbers other than `NaN`, `<=` is `<` or `===`. */
  lemma LeOnNumbers(x: Num, y: Num)
    requires !x.NaN? && !y.NaN?
    ensures Le(Number(x), Number(y)) <==> Lt(Number(x), Number(y)) || StrictEq(Number(x), Number(y))
    ensures Ge(Number(x), Number(y)) <==> Gt(Number(x), Number(y)) || StrictEq(Number(x), Number(y))
  {
  }

  // ---------------------------------------------------------------------------
  // Arithmetic
  // ---------------------------------------------------------------------------

  function NumAdd(x: Num, y: Num): Num {
    match (x, y)
    case (Fin(a), Fin(b)) => Fin(a + b)
    case (NaN, _) => NaN
    case (_, NaN) => NaN
    case (PosInf, NegInf) => NaN
    case (NegInf, PosInf) => NaN
    case (PosInf, _) => PosInf
    case (NegInf, _) => NegInf
    case (_, inf) => inf
  }

  /** `a + b`: concatenation when either side is (or converts to) a string, else addition. */
  function Add(a: Value, b: Value): (r: Value)
    ensures a.Str? && b.Str? ==> r == Str(a.s + b.s)
    ensures a.Number? && b.Number? ==> r == Number(NumAdd(a.n, b.n))
  {
    var pa := ToPrimitive(a);
    var pb := ToPrimitive(b);
    if pa.Str? || pb.Str? then Str(ToStr(pa) + ToStr(pb))
    else Number(NumAdd(ToNumber(pa), ToNumber(pb)))
  }

  /** `Math.min(x, y)` on two numbers. */
  function NumMin(x: Num, y: Num): (r: Num)
    ensures !x.NaN? && !y.NaN? ==> (r == x || r == y) && NumLess(x, r) != Some(true) && NumLess(y, r) != Some(true)
    ensures x.NaN? || y.NaN? ==> r.NaN?
  {
    match NumLess(y, x)
    case None => NaN
    case Some(yFirst) => if yFirst then y else x
  }

  /** `Math.max(x, y)` on two numbers. */
  function NumMax(x: Num, y: Num): (r: Num)
    ensures !x.NaN? && !y.NaN? ==> (r == x || r == y) && NumLess(r, x) != Some(true) && NumLess(r, y) != Some(true)
    ensures x.NaN? || y.NaN? ==> r.NaN?
  {
    match NumLess(x, y)
    case None => NaN
    case Some(yLarger) => if yLarger then y else x
  }

  // ---------------------------------------------------------------------------
  // Property access
  // ---------------------------------------------------------------------------

  /** The array index a property name denotes: a canonical decimal numeral. */
  function ParseIndex(key: string): (r: Option<nat>)
    ensures r.Some? ==> key != [] && AllDigits(key)
  {
    if key != [] && AllDigits(key) && (key == "0" || key[0] != '0') then Some(DigitsValue(key))
    else None
  }

  /** The message of the TypeError thrown when a property is read from `undefined`/`null`. */
  function ReadError(base: Value, key: string): string
    requires IsNullish(base)
  {
    "Cannot read properties of " + ToStr(base) + " (reading '" + key + "')"
  }

  /** `base[key]`: a TypeError on `undefined` and `null`; an own property, an array element,
      the `length` of an array or a string, a character of a string; `undefined` for any other
      property (inherited properties and methods are not modelled). */
  function GetProp(base: Value, key: string): (r: Result<Value>)
    ensures r.Err? <==> IsNullish(base)
    ensures base.Obj? ==> r == Ok(if key in base.fields then base.fields[key] else Undef)
  {
    match base
    case Undef => Err(ReadError(base, key))
    case Null => Err(ReadError(base, key))
    case Obj(fields) => Ok(if key in fields then fields[key] else Undef)
    case Arr(items) =>
      if key == "length" then Ok(Int(|items|))
      else (match ParseIndex(key)
            case Some(i) => if i < |items| then Ok(items[i]) else Ok(Undef)
            case None => Ok(Undef))
    case Str(s) =>
      if key == "length" then Ok(Int(|s|))
      else (match ParseIndex(key)
            case Some(i) => if i < |s| then Ok(Str([s[i]])) else Ok(Undef)
            case None => Ok(Undef))
    case _ => Ok(Undef)
  }

  /** `obj[key]` on an object read as a record: a missing property is `undefined`. */
  function Field(fields: map<string, Value>, key: string): Value {
    if key in fields then fields[key] else Undef
  }

  /** The message of the TypeError thrown when a missing method is called. */
  function NotAFunction(expression: string): string {
    expression + " is not a function"
  }

  // ---------------------------------------------------------------------------
  // JSON
  // ---------------------------------------------------------------------------

  function HexDigit(d: nat): char
    requires d < 16
  {
    if d < 10 then DigitChar(d) else ('a' as int + d - 10) as char
  }

  function JsonEscapeChar(c: char): string {
    if c == '"' then "\\\""
    else if c == '\\' then "\\\\"
    else if c == '\n' then "\\n"
    else if c == '\r' then "\\r"
    else if c == '\t' then "\\t"
    else if c == '\U{0008}' then "\\b"
    else if c == '\U{000C}' then "\\f"
    else if (c as int) < 0x20 then "\\u00" + [HexDigit(c as int / 16), HexDigit(c as int % 16)]
    else [c]
  }

  function JsonEscape(s: string): string {
    if s == [] then [] else JsonEscapeChar(s[0]) + JsonEscape(s[1..])
  }

  /** `JSON.stringify(s)` for a string `s`. */
  function JsonQuote(s: string): (r: string)
    ensures |r| >= 2 && r[0] == '"' && r[|r| - 1] == '"'
  {
    "\"" + JsonEscape(s) + "\""
  }

  /** Text without quotes, backslashes or control characters is quoted unchanged. */
  lemma {:induction false} JsonEscapePlain(s: string)
    requires forall i :: 0 <= i < |s| ==> s[i] != '"' && s[i] != '\\' && s[i] as int >= 0x20
    ensures JsonEscape(s) == s
  {
    if s != [] {
      JsonEscapePlain(s[1..]);
    }
  }
}
