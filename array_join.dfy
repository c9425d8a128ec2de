/** The array join action: the items of an array, or their values at a path, written as text
    with a separator between consecutive items. */
module ArrayJoin {
  import opened Wrappers
  import opened Text
  import opened Js
  import opened Path

  const MissingArray := "Missing array input"

  /** `join(separator)`: an absent separator is a comma, any other is written as text. */
  function SeparatorText(separator: Value): string {
    if separator.Undef? then "," else ToStr(separator)
  }

  /** The specification of the action: the values to join (the items, or with a path their
      projections), joined with the separator. */
  function JoinResult(list: Value, separator: Value, path: string): (r: Result<string>)
    ensures !list.Arr? ==> r == Err(MissingArray)
  {
    if !list.Arr? then Err(MissingArray)
    else
      var values :- if path != [] then ProjectPaths(list.items, path) else Ok(list.items);
      Ok(JoinValues(values, SeparatorText(separator)))
  }

  /** `arrayJoin({array: {data}, separator, path})`: with a path, the loop pushes the value at
      the path of every item, refusing items that are not objects. */
  method JoinArray(list: Value, separator: Value, path: string) returns (r: Result<string>)
    ensures r == JoinResult(list, separator, path)
  {
    if !list.Arr? {
      return Err(MissingArray);
    }
    var toJoin := list.items;
    if path != [] {
      var projected := Project(list.items, path);
      if projected.Err? {
        return Err(projected.message);
      }
      toJoin := projected.value;
    }
    return Ok(JoinValues(toJoin, SeparatorText(separator)));
  }

  /** The loop of the action for a path: it pushes the value at the path of every item,
      refusing items that are not objects. */
  method Project(items: seq<Value>, path: string) returns (r: Result<seq<Value>>)
    ensures r == ProjectPaths(items, path)
  {
    var toJoin: seq<Value> := [];
    var i := 0;
    assert items[0..] == items;
    while i < |items|
      invariant 0 <= i <= |items|
      invariant ProjectPaths(items, path) == Prepend(toJoin, ProjectPaths(items[i..], path))
    {
      ProjectStep(toJoin, items, i, path);
      if !IsObjectType(items[i]) {
        return Err(NotAnObject);
      }
      var v := TravelPathLoop(items[i], path);
      if v.Err? {
        return Err(v.message);
      }
      toJoin := toJoin + [v.value];
      i := i + 1;
    }
    ProjectDone(toJoin, items, path);
    return Ok(toJoin);
  }

  /** The text of an array of strings. */
  function Strs(parts: seq<string>): (r: seq<Value>)
    ensures |r| == |parts| && forall i :: 0 <= i < |parts| ==> r[i] == Str(parts[i])
  {
    seq(|parts|, i requires 0 <= i < |parts| => Str(parts[i]))
  }

  /** Joining strings writes them in order with the separator between neighbours only. */
  lemma {:induction false} JoinValuesOfStrings(parts: seq<string>, sep: string)
    ensures JoinValues(Strs(parts), sep) == Join(parts, sep)
    decreases |parts|
  {
    if |parts| > 1 {
      JoinValuesOfStrings(parts[1..], sep);
      assert Strs(parts)[1..] == Strs(parts[1..]);
    }
  }

  /** The separator sits between consecutive items only: splitting the joined text of strings
      free of a one-character separator on that separator gives the strings back. */
  lemma JoinArraySplitsBack(parts: seq<string>, c: char)
    requires |parts| >= 1
    requires forall i :: 0 <= i < |parts| ==> c !in parts[i]
    ensures JoinResult(Arr(Strs(parts)), Str([c]), "").Ok?
    ensures Split(JoinResult(Arr(Strs(parts)), Str([c]), "").value, [c]) == parts
  {
    JoinValuesOfStrings(parts, [c]);
    SplitJoin(parts, c);
  }
}
