/** The array filter action: the items of an array that pass the operator test against a
    value, in their original order. */
module ArrayFilter {
  import opened Wrappers
  import opened Js
  import opened Operators
  import opened Seqs

  const MissingFilter := "Array Filter: Missing required parameters to filter array"

  /** `items.filter(test)` with a callback that may throw: the first error ends the call. */
  function Keep(test: Value -> Result<bool>, items: seq<Value>): (r: Result<seq<Value>>)
    ensures r.Ok? <==> forall i :: 0 <= i < |items| ==> test(items[i]).Ok?
    ensures r.Ok? ==> |r.value| <= |items|
    ensures r.Ok? ==> forall i :: 0 <= i < |r.value| ==> r.value[i] in items && test(r.value[i]) == Ok(true)
    ensures r.Ok? ==> forall i :: 0 <= i < |items| && test(items[i]) == Ok(true) ==> items[i] in r.value
  {
    if items == [] then Ok([])
    else
      var keep :- test(items[0]);
      var rest :- Keep(test, items[1..]);
      Ok(if keep then [items[0]] + rest else rest)
  }

  /** Filtering keeps the order of the input: the result for `a + b` is the result for `a`
      followed by the result for `b`. */
  lemma {:induction false} KeepAppend(test: Value -> Result<bool>, a: seq<Value>, b: seq<Value>)
    requires Keep(test, a).Ok? && Keep(test, b).Ok?
    ensures Keep(test, a + b) == Ok(Keep(test, a).value + Keep(test, b).value)
    decreases |a|
  {
    if a == [] {
      AppendEmpty(b);
      AppendEmpty(Keep(test, b).value);
    } else {
      assert (a + b)[0] == a[0] && (a + b)[1..] == a[1..] + b;
      KeepAppend(test, a[1..], b);
      if test(a[0]).value {
        Regroup([a[0]], Keep(test, a[1..]).value, Keep(test, b).value);
      }
    }
  }

  /** Two tests that disagree on every item split the input between their results. */
  lemma {:induction false} KeepPartition(test: Value -> Result<bool>, other: Value -> Result<bool>, items: seq<Value>)
    requires forall i :: 0 <= i < |items| ==> test(items[i]).Ok? && other(items[i]).Ok?
    requires forall i :: 0 <= i < |items| ==> other(items[i]).value == !test(items[i]).value
    ensures |Keep(test, items).value| + |Keep(other, items).value| == |items|
    decreases |items|
  {
    if items != [] {
      KeepPartition(test, other, items[1..]);
    }
  }

  /** `arrayFilter({array, path, value, operator, valueIsDate})`: the parameter check, the
      operator lookup, then `array.filter` with the shared item test. */
  function Filter(list: Value, path: string, value: Value, operator: string, mode: DateMode): (r: Result<seq<Value>>)
    ensures MissingParameter(list, path, value, operator) ==> r == Err(MissingFilter)
    ensures !MissingParameter(list, path, value, operator) && ParseOp(operator).None? ==> r == Err(InvalidOperator)
    ensures r.Ok? ==> list.Arr? && |r.value| <= |list.items|
  {
    if MissingParameter(list, path, value, operator) then Err(MissingFilter)
    else match ParseOp(operator)
      case None => Err(InvalidOperator)
      case Some(op) =>
        if !list.Arr? then Err(NotAFunction("array.filter"))
        else Keep(item => Test(op, path, value, mode, item), list.items)
  }

  /** The `eq` and `ne` filters of the same array, path and value split its items between them. */
  lemma FilterEqNe(items: seq<Value>, path: string, value: Value, mode: DateMode)
    requires Filter(Arr(items), path, value, "eq", mode).Ok?
    ensures Filter(Arr(items), path, value, "ne", mode).Ok?
    ensures |Filter(Arr(items), path, value, "eq", mode).value| + |Filter(Arr(items), path, value, "ne", mode).value| == |items|
  {
    var eq := (item: Value) => Test(Eq, path, value, mode, item);
    var ne := (item: Value) => Test(Ne, path, value, mode, item);
    assert ParseOp("eq") == Some(Eq) && ParseOp("ne") == Some(Ne);
    forall i | 0 <= i < |items|
      ensures ne(items[i]).Ok? && ne(items[i]).value == !eq(items[i]).value
    {
      TestPrimitives(Eq, path, value, mode, items[i]);
    }
    KeepPartition(eq, ne, items);
  }
}
