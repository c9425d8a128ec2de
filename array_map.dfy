/** The array map action: every item replaced by its value at a path. */
module ArrayMap {
  import opened Wrappers
  import opened Text
  import opened Js
  import opened Path

  /** `items.map(item => item[key])`: the first `undefined` or `null` item throws. */
  function ReadAll(items: seq<Value>, key: string): (r: Result<seq<Value>>)
    ensures r.Ok? ==> |r.value| == |items|
    ensures r.Ok? ==> forall i :: 0 <= i < |items| ==> GetProp(items[i], key) == Ok(r.value[i])
    ensures r.Err? <==> exists i :: 0 <= i < |items| && IsNullish(items[i])
  {
    if items == [] then Ok([])
    else
      var head :- GetProp(items[0], key);
      var tail :- ReadAll(items[1..], key);
      Ok([head] + tail)
  }

  /** The mapping of the items of an array: a path with a dot travels every item, which
      must be an object; a path without one reads that property of every item. */
  function MapItems(items: seq<Value>, path: string): (r: Result<seq<Value>>)
    ensures r.Ok? ==> |r.value| == |items|
  {
    if '.' in path then ProjectPaths(items, path) else ReadAll(items, path)
  }

  /** `mapArray({array, path})`: `map` of anything but an array throws a TypeError, the
      read error for `undefined` and `null`, "... is not a function" for the rest (named
      `result.map` in the dotted branch, `array.map` in the other). */
  function MapArray(list: Value, path: string): (r: Result<seq<Value>>)
    ensures IsNullish(list) ==> r == Err(ReadError(list, "map"))
    ensures !IsNullish(list) && !list.Arr? ==>
              r == Err(NotAFunction(if '.' in path then "result.map" else "array.map"))
    ensures r.Ok? ==> list.Arr? && |r.value| == |list.items|
  {
    match list
    case Arr(items) => MapItems(items, path)
    case _ =>
      if IsNullish(list) then Err(ReadError(list, "map"))
      else Err(NotAFunction(if '.' in path then "result.map" else "array.map"))
  }

  /** Each element of the result is the value at the path of the item in the same position. */
  lemma MapArrayPointwise(list: Value, path: string, i: nat)
    requires MapArray(list, path).Ok? && i < |list.items|
    ensures TravelPath(list.items[i], path) == Ok(MapArray(list, path).value[i])
  {
    if '.' !in path {
      TravelPathSingle(list.items[i], path);
    }
  }

  /** On an array of objects both branches are the same walk: the dot test only decides
      whether non-objects are refused. */
  lemma MapArrayOfObjects(items: seq<Value>, path: string)
    requires forall i :: 0 <= i < |items| ==> IsObjectType(items[i])
    ensures MapArray(Arr(items), path) == ProjectPaths(items, path)
  {
    if '.' !in path {
      forall i | 0 <= i < |items| {
        TravelPathSingle(items[i], path);
      }
      ReadAllIsProjection(items, path);
    }
  }

  lemma {:induction false} ReadAllIsProjection(items: seq<Value>, key: string)
    requires '.' !in key
    requires forall i :: 0 <= i < |items| ==> IsObjectType(items[i])
    requires forall i :: 0 <= i < |items| ==> TravelPath(items[i], key) == GetProp(items[i], key)
    ensures ReadAll(items, key) == ProjectPaths(items, key)
    decreases |items|
  {
    if items != [] {
      ReadAllIsProjection(items[1..], key);
    }
  }
}
