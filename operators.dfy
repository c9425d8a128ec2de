/** The operator table and the item test that the filter and find actions share. */
module Operators {
  import opened Wrappers
  import opened Text
  import opened Numbers
  import opened Js
  import opened Path

  /** The keys of the operator table. */
  datatype Op = Eq | Ne | Gt | Lt | Gte | Lte | Cont | Ncont

  /** `operators[operator]`: the operator a name selects, if any. */
  function ParseOp(name: string): (r: Option<Op>)
    ensures r.Some? <==> name in {"eq", "ne", "gt", "lt", "gte", "lte", "cont", "ncont"}
  {
    match name
    case "eq" => Some(Eq)
    case "ne" => Some(Ne)
    case "gt" => Some(Gt)
    case "lt" => Some(Lt)
    case "gte" => Some(Gte)
    case "lte" => Some(Lte)
    case "cont" => Some(Cont)
    case "ncont" => Some(Ncont)
    case _ => None
  }

  /** `a.includes(b)`: a string searches for the text of `b`; a number has no `includes`. The
      item side of a test is always a string or a number. */
  function Includes(a: Value, b: Value): (r: Result<bool>)
    ensures r.Ok? <==> a.Str?
    ensures a.Str? ==> r == Ok(Contains(a.s, ToStr(b)))
  {
    if a.Str? then Ok(Contains(a.s, ToStr(b))) else Err(NotAFunction("a.includes"))
  }

  /** `filterFn(a, b)` for the selected operator. */
  function Apply(op: Op, a: Value, b: Value): Result<bool> {
    match op
    case Eq => Ok(StrictEq(a, b))
    case Ne => Ok(!StrictEq(a, b))
    case Gt => Ok(Js.Gt(a, b))
    case Lt => Ok(Js.Lt(a, b))
    case Gte => Ok(Ge(a, b))
    case Lte => Ok(Le(a, b))
    case Cont => Includes(a, b)
    case Ncont =>
      var found :- Includes(a, b);
      Ok(!found)
  }

  /** `eq` and `ne` are complements, and so are `cont` and `ncont`, which fail together. */
  lemma ApplyComplements(a: Value, b: Value)
    ensures Apply(Ne, a, b) == Ok(!Apply(Eq, a, b).value)
    ensures Apply(Cont, a, b).Ok? <==> Apply(Ncont, a, b).Ok?
    ensures Apply(Cont, a, b).Ok? ==> Apply(Ncont, a, b).value == !Apply(Cont, a, b).value
  {
  }

  /** On two numbers other than `NaN` the four comparisons are the order of the numbers. */
  lemma ApplyOnNumbers(x: real, y: real)
    ensures Apply(Gt, Number(Fin(x)), Number(Fin(y))) == Ok(x > y)
    ensures Apply(Lt, Number(Fin(x)), Number(Fin(y))) == Ok(x < y)
    ensures Apply(Gte, Number(Fin(x)), Number(Fin(y))) == Ok(x >= y)
    ensures Apply(Lte, Number(Fin(x)), Number(Fin(y))) == Ok(x <= y)
    ensures Apply(Eq, Number(Fin(x)), Number(Fin(y))) == Ok(x == y)
  {
  }

  // ---------------------------------------------------------------------------
  // The item test
  // ---------------------------------------------------------------------------

  /** How string values are compared: as they are, or (filter's `valueIsDate`) as the time
      values of the dates they denote. `timeOf(v)` is `new Date(v).getTime()`. */
  datatype DateMode = AsText | AsDates(timeOf: Value -> Num)

  const InvalidValueType := "Invalid value type"

  /** The comparison of a string with the filter value. */
  function TestText(op: Op, text: Value, value: Value, mode: DateMode): Result<bool>
    requires text.Str?
  {
    match mode
    case AsText => Apply(op, text, value)
    case AsDates(timeOf) =>
      Apply(op, Number(timeOf(text)), if value.Number? then value else Number(timeOf(value)))
  }

  /** The callback of `array.filter` / `array.find`: a string item is compared with `value`, a
      number item with `Number(value)`, and any other item through its value at `path`, with
      the same dispatch; a path value that is neither a string nor a number is an error. */
  function Test(op: Op, path: string, value: Value, mode: DateMode, item: Value): Result<bool> {
    if item.Str? then TestText(op, item, value, mode)
    else if item.Number? then Apply(op, item, Number(ToNumber(value)))
    else
      var v :- TravelPath(item, path);
      if v.Str? then TestText(op, v, value, mode)
      else if v.Number? then Apply(op, v, Number(ToNumber(value)))
      else Err(InvalidValueType)
  }

  /** Any item other than a string or a number is tested as the value at its path would be:
      a failed walk is the error, a string or number is compared, anything else is invalid. */
  lemma TestThroughPath(op: Op, path: string, value: Value, mode: DateMode, item: Value)
    requires !item.Str? && !item.Number?
    ensures TravelPath(item, path).Err? ==> Test(op, path, value, mode, item) == Err(TravelPath(item, path).message)
    ensures TravelPath(item, path).Ok? ==>
              var v := TravelPath(item, path).value;
              Test(op, path, value, mode, item)
                == if v.Str? || v.Number? then Test(op, path, value, mode, v) else Err(InvalidValueType)
  {
  }

  /** A string item with its date mode off is compared as it is, and a number item always
      with `Number(value)`; `ne` and `eq` give opposite answers on every item they accept. */
  lemma TestPrimitives(op: Op, path: string, value: Value, mode: DateMode, item: Value)
    ensures item.Str? && mode.AsText? ==> Test(op, path, value, mode, item) == Apply(op, item, value)
    ensures item.Number? ==> Test(op, path, value, mode, item) == Apply(op, item, Number(ToNumber(value)))
    ensures Test(Eq, path, value, mode, item).Ok? <==> Test(Ne, path, value, mode, item).Ok?
    ensures Test(Eq, path, value, mode, item).Ok? ==>
              Test(Ne, path, value, mode, item).value == !Test(Eq, path, value, mode, item).value
  {
    if item.Str? || item.Number? {
      TestComplementsOn(path, value, mode, item);
    } else {
      TestThroughPath(Eq, path, value, mode, item);
      TestThroughPath(Ne, path, value, mode, item);
      if TravelPath(item, path).Ok? {
        var v := TravelPath(item, path).value;
        if v.Str? || v.Number? {
          TestComplementsOn(path, value, mode, v);
        }
      }
    }
  }

  /** On a string or a number, `eq` accepts and `ne` gives the opposite answer. */
  lemma TestComplementsOn(path: string, value: Value, mode: DateMode, item: Value)
    requires item.Str? || item.Number?
    ensures Test(Eq, path, value, mode, item).Ok? && Test(Ne, path, value, mode, item).Ok?
    ensures Test(Ne, path, value, mode, item).value == !Test(Eq, path, value, mode, item).value
  {
    if item.Number? {
      ApplyComplements(item, Number(ToNumber(value)));
    } else if mode.AsText? {
      ApplyComplements(item, value);
    } else {
      ApplyComplements(Number(mode.timeOf(item)), if value.Number? then value else Number(mode.timeOf(value)));
    }
  }

  // ---------------------------------------------------------------------------
  // Parameter checks
  // ---------------------------------------------------------------------------

  /** `!array || !path || !value || !operator`: any falsy parameter, `0` and `""` included. */
  predicate MissingParameter(list: Value, path: string, value: Value, operator: string) {
    !Truthy(list) || path == [] || !Truthy(value) || operator == []
  }

  const InvalidOperator := "Invalid operator"
}
