/** `travelPath(object, path)`, which the array actions share: the path is split on `.` and
    the value is indexed by each key in turn. Reading a key of `undefined` or `null` on the way
    raises the TypeError of the property access. */
module Path {
  import opened Wrappers
  import opened Text
  import opened Js

  /** The value reached by reading `keys` one after the other, starting at `v`. */
  function Travel(v: Value, keys: seq<string>): (r: Result<Value>)
    decreases |keys|
  {
    if keys == [] then Ok(v)
    else
      var next :- GetProp(v, keys[0]);
      Travel(next, keys[1..])
  }

  /** The specification of `travelPath`. */
  function TravelPath(v: Value, path: string): Result<Value> {
    Travel(v, Split(path, "."))
  }

  /** `travelPath(object, path)`: `result` is rebound to `result[key]` for every key. */
  method TravelPathLoop(start: Value, path: string) returns (r: Result<Value>)
    ensures r == TravelPath(start, path)
  {
    var keys := Split(path, ".");
    var result := start;
    var i := 0;
    while i < |keys|
      invariant 0 <= i <= |keys|
      invariant Travel(result, keys[i..]) == Travel(start, keys)
    {
      assert keys[i..][1..] == keys[i + 1..];
      var next := GetProp(result, keys[i]);
      if next.Err? {
        return Err(next.message);
      }
      result := next.value;
      i := i + 1;
    }
    return Ok(result);
  }

  /** Reading `a` and then `b` is reading `a + b`; an error on the way ends the walk. */
  lemma {:induction false} TravelAppend(v: Value, a: seq<string>, b: seq<string>)
    ensures Travel(v, a + b) == (match Travel(v, a) case Ok(w) => Travel(w, b) case Err(m) => Err(m))
    decreases |a|
  {
    if a != [] {
      assert (a + b)[1..] == a[1..] + b;
      match GetProp(v, a[0])
      case Err(_) =>
      case Ok(next) => TravelAppend(next, a[1..], b);
    } else {
      assert a + b == b;
    }
  }

  /** A path without a dot is one property access. */
  lemma TravelPathSingle(v: Value, key: string)
    requires '.' !in key
    ensures TravelPath(v, key) == GetProp(v, key)
  {
    SplitWithout(key, '.');
    assert Split(key, ".") == [key];
    assert [key][1..] == [];
    match GetProp(v, key)
    case Err(_) =>
    case Ok(w) => assert Travel(w, []) == Ok(w);
  }

  /** `first.rest` reads `first` and then travels `rest` from there. */
  lemma TravelPathDot(v: Value, first: string, rest: string)
    requires '.' !in first
    ensures TravelPath(v, first + "." + rest)
         == (match GetProp(v, first) case Ok(w) => TravelPath(w, rest) case Err(m) => Err(m))
  {
    SplitCons(first, '.', rest);
    assert first + "." + rest == first + ['.'] + rest;
    TravelAppend(v, [first], Split(rest, "."));
  }

  /** Nested objects: the walk goes down one own property per key. */
  lemma TravelNested(fields: map<string, Value>, first: string, rest: string)
    requires '.' !in first && first in fields
    ensures TravelPath(Obj(fields), first + "." + rest) == TravelPath(fields[first], rest)
  {
    TravelPathDot(Obj(fields), first, rest);
  }

  // ---------------------------------------------------------------------------
  // Projection of a list of objects
  // ---------------------------------------------------------------------------

  const NotAnObject := "Array item is not an object. Cannot travel path"

  /** One item of a projection: only values of `typeof` "object" may be travelled. */
  function ProjectOne(item: Value, path: string): (r: Result<Value>)
    ensures !IsObjectType(item) ==> r == Err(NotAnObject)
    ensures IsObjectType(item) ==> r == TravelPath(item, path)
  {
    if IsObjectType(item) then TravelPath(item, path) else Err(NotAnObject)
  }

  /** The items replaced by their values at `path`, or the error of the first item that has
      none. */
  function ProjectPaths(items: seq<Value>, path: string): (r: Result<seq<Value>>)
    ensures r.Ok? ==> |r.value| == |items|
    ensures r.Ok? ==> forall i :: 0 <= i < |items| ==> ProjectOne(items[i], path) == Ok(r.value[i])
    ensures r.Err? ==> exists i :: 0 <= i < |items| && ProjectOne(items[i], path) == Err(r.message)
                         && forall j :: 0 <= j < i ==> ProjectOne(items[j], path).Ok?
  {
    if items == [] then Ok([])
    else
      var head :- ProjectOne(items[0], path);
      var tail := ProjectPaths(items[1..], path);
      if tail.Err? then Err(tail.message) else Ok([head] + tail.value)
  }

  /** A projection succeeds exactly when every item can be travelled. */
  lemma ProjectPathsOk(items: seq<Value>, path: string)
    ensures ProjectPaths(items, path).Ok? <==> forall i :: 0 <= i < |items| ==> ProjectOne(items[i], path).Ok?
  {
  }

  /** The projection still to come, after the values already computed. */
  function Prepend(done: seq<Value>, rest: Result<seq<Value>>): (r: Result<seq<Value>>)
    ensures done == [] ==> r == rest
  {
    match rest
    case Ok(vs) => assert done == [] ==> done + vs == vs; Ok(done + vs)
    case Err(m) => Err(m)
  }

  /** One step of a projection loop: the item at `i` either ends it with its error or adds its
      value to those computed. */
  lemma ProjectStep(done: seq<Value>, items: seq<Value>, i: nat, path: string)
    requires i < |items|
    ensures ProjectOne(items[i], path).Err? ==>
              Prepend(done, ProjectPaths(items[i..], path)) == Err(ProjectOne(items[i], path).message)
    ensures ProjectOne(items[i], path).Ok? ==>
              Prepend(done, ProjectPaths(items[i..], path))
                == Prepend(done + [ProjectOne(items[i], path).value], ProjectPaths(items[i + 1..], path))
  {
    assert items[i..][0] == items[i] && items[i..][1..] == items[i + 1..];
    var tail := ProjectPaths(items[i + 1..], path);
    if ProjectOne(items[i], path).Ok? && tail.Ok? {
      var v := ProjectOne(items[i], path).value;
      assert done + ([v] + tail.value) == done + [v] + tail.value;
    }
  }

  /** The end of a projection loop: the values computed are the projection. */
  lemma ProjectDone(done: seq<Value>, items: seq<Value>, path: string)
    ensures Prepend(done, ProjectPaths(items[|items|..], path)) == Ok(done)
  {
    assert items[|items|..] == [];
    assert done + [] == done;
  }
}
