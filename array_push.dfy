/** The array push action: a number appended to an array (or to the projection of its items
    at a path), optionally only when it is not already there. Without a path the caller's
    array itself is extended. */
module ArrayPush {
  import opened Wrappers
  import opened Text
  import opened Numbers
  import opened Js
  import opened Path
  import opened ArrayCount

  /** A JavaScript array object, whose elements change in place. */
  class JsArray {
    var items: seq<Value>

    constructor(items: seq<Value>)
      ensures this.items == items
    {
      this.items := items;
    }
  }

  const NotANumber := "Value is not a number"

  /** The specification of the action: the elements after the projection, with `Number(data)`
      appended unless it is `NaN` (an error) or `filter` is set and it is already present. The
      projection happens first, so its errors come before the number check. */
  function PushResult(items: seq<Value>, path: string, data: Value, filter: bool): (r: Result<seq<Value>>)
  {
    var elements :- if path != [] then ProjectPaths(items, path) else Ok(items);
    var value := Number(ToNumber(data));
    if value.n.NaN? then Err(NotANumber)
    else if filter && Includes(elements, value) then Ok(elements)
    else Ok(elements + [value])
  }

  /** The `array.data` an action receives: an array object, or any other value. An array
      given as `OtherData(Arr(..))` stands for an array value that no caller holds, so the
      push is seen only in the result. */
  datatype Data = ArrayData(list: JsArray) | OtherData(other: Value)

  /** The action on a value that is not an array object: an array value behaves as its
      elements do; otherwise the first method called on it throws a TypeError (the read
      error for `undefined` and `null`, "... is not a function" for the rest). The number
      check comes after `map` and before `includes`. A string has `includes`, so with
      `filter` a string that contains the number's text comes back unchanged. */
  function PushValue(v: Value, path: string, data: Value, filter: bool): (r: Result<Value>)
    ensures v.Arr? ==> (r.Ok? <==> PushResult(v.items, path, data, filter).Ok?)
    ensures v.Arr? && r.Ok? ==> r.value == Arr(PushResult(v.items, path, data, filter).value)
    ensures !v.Arr? && r.Ok? ==>
              path == [] && filter && v.Str? && r.value == v && Contains(v.s, ToStr(Number(ToNumber(data))))
    ensures !v.Arr? && path != [] ==>
              r == Err(if IsNullish(v) then ReadError(v, "map") else NotAFunction("result.map"))
  {
    if v.Arr? then
      var elements :- PushResult(v.items, path, data, filter);
      Ok(Arr(elements))
    else if path != [] then Err(if IsNullish(v) then ReadError(v, "map") else NotAFunction("result.map"))
    else
      var value := Number(ToNumber(data));
      if value.n.NaN? then Err(NotANumber)
      else if filter && !v.Str? then Err(if IsNullish(v) then ReadError(v, "includes") else NotAFunction("result.includes"))
      else if filter && Contains(v.s, ToStr(value)) then Ok(v)
      else Err(if IsNullish(v) then ReadError(v, "push") else NotAFunction("result.push"))
  }

  /** `arrayPush({array: {data}, path, data, filter})`. On an array object without a path the
      result is the caller's array, extended in place; with a path it is a new array of the
      projections. Any other value is not changed and gives `PushValue`'s outcome. */
  method Push(input: Data, path: string, data: Value, filter: bool) returns (r: Result<Data>)
    modifies if input.ArrayData? then {input.list} else {}
    ensures input.ArrayData? ==> (r.Ok? <==> PushResult(old(input.list.items), path, data, filter).Ok?)
    ensures input.ArrayData? && r.Ok? ==>
              r.value.ArrayData? && r.value.list.items == PushResult(old(input.list.items), path, data, filter).value
    ensures input.ArrayData? && r.Err? ==> r.message == PushResult(old(input.list.items), path, data, filter).message
    ensures input.ArrayData? && path == [] && r.Ok? ==> r.value == input
    ensures input.ArrayData? && path != [] && r.Ok? ==> fresh(r.value.list)
    ensures input.ArrayData? && (path != [] || r.Err?) ==> input.list.items == old(input.list.items)
    ensures input.OtherData? ==> (r.Ok? <==> PushValue(input.other, path, data, filter).Ok?)
    ensures input.OtherData? && r.Ok? ==> r.value == OtherData(PushValue(input.other, path, data, filter).value)
    ensures input.OtherData? && r.Err? ==> r.message == PushValue(input.other, path, data, filter).message
  {
    match input
    case OtherData(v) =>
      match PushValue(v, path, data, filter) {
        case Ok(w) => r := Ok(OtherData(w));
        case Err(e) => r := Err(e);
      }
    case ArrayData(list) =>
      var pushed := PushArray(list, path, data, filter);
      match pushed {
        case Ok(a) => r := Ok(ArrayData(a));
        case Err(e) => r := Err(e);
      }
  }

  /** The action on an array object. */
  method PushArray(list: JsArray, path: string, data: Value, filter: bool) returns (r: Result<JsArray>)
    modifies list
    ensures r.Ok? <==> PushResult(old(list.items), path, data, filter).Ok?
    ensures r.Ok? ==> r.value.items == PushResult(old(list.items), path, data, filter).value
    ensures r.Err? ==> r.message == PushResult(old(list.items), path, data, filter).message
    ensures path == [] && r.Ok? ==> r.value == list
    ensures path != [] && r.Ok? ==> fresh(r.value)
    ensures path != [] || r.Err? ==> list.items == old(list.items)
  {
    var value := Number(ToNumber(data));
    var result := list;
    if path != [] {
      var projected := ProjectPaths(list.items, path);
      if projected.Err? {
        return Err(projected.message);
      }
      result := new JsArray(projected.value);
    }
    if value.n.NaN? {
      return Err(NotANumber);
    }
    if filter && Includes(result.items, value) {
      return Ok(result);
    }
    result.items := result.items + [value];
    return Ok(result);
  }

  /** A push that adds the number keeps every earlier element and puts the number last. */
  lemma PushAppends(items: seq<Value>, data: Value, filter: bool)
    requires PushResult(items, "", data, filter).Ok?
    requires !filter || !Includes(items, Number(ToNumber(data)))
    ensures var r := PushResult(items, "", data, filter).value;
            |r| == |items| + 1 && r[..|items|] == items && r[|items|] == Number(ToNumber(data))
    ensures Count(Arr(PushResult(items, "", data, filter).value)) == Ok(Count(Arr(items)).value + 1)
  {
    assert (items + [Number(ToNumber(data))])[..|items|] == items;
  }

  /** With `filter`, pushing the same number twice changes nothing the second time. */
  lemma PushFilterIdempotent(items: seq<Value>, data: Value)
    requires PushResult(items, "", data, true).Ok?
    ensures PushResult(PushResult(items, "", data, true).value, "", data, true) == PushResult(items, "", data, true)
  {
    var value := Number(ToNumber(data));
    var once := PushResult(items, "", data, true).value;
    if !Includes(items, value) {
      assert once[|items|] == value;
      assert SameValueZero(once[|items|], value);
    }
    assert Includes(once, value);
  }

  /** The path is applied before the number is checked: an item that cannot be travelled is
      reported even when the number is invalid. */
  lemma PushProjectsFirst(items: seq<Value>, path: string, data: Value, filter: bool)
    requires path != [] && ProjectPaths(items, path).Err?
    ensures PushResult(items, path, data, filter) == Err(ProjectPaths(items, path).message)
  {
  }
}
