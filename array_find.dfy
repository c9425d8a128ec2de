/** The array find action: the first item that passes the operator test, or `undefined`. */
module ArrayFind {
  import opened Wrappers
  import opened Js
  import opened Operators
  import opened ArrayFilter

  const MissingFind := "Array Find: Missing required parameters to filter array"

  /** `items.find(test)` with a callback that may throw: items are tested in order and the
      search stops at the first one that passes, so later items are never tested. */
  function First(test: Value -> Result<bool>, items: seq<Value>): (r: Result<Value>)
  {
    if items == [] then Ok(Undef)
    else
      var hit :- test(items[0]);
      if hit then Ok(items[0]) else First(test, items[1..])
  }

  /** The first passing item, when every item before it fails the test and it passes. */
  lemma {:induction false} FirstFindsEarliest(test: Value -> Result<bool>, items: seq<Value>, k: nat)
    requires k < |items| && test(items[k]) == Ok(true)
    requires forall j :: 0 <= j < k ==> test(items[j]) == Ok(false)
    ensures First(test, items) == Ok(items[k])
    decreases k
  {
    if k > 0 {
      FirstFindsEarliest(test, items[1..], k - 1);
    }
  }

  /** When every item is tested without error, the search returns the head of the filter
      result, or `undefined` when the filter keeps nothing. */
  lemma {:induction false} FirstIsHeadOfKeep(test: Value -> Result<bool>, items: seq<Value>)
    requires Keep(test, items).Ok?
    ensures First(test, items) == Ok(if Keep(test, items).value == [] then Undef else Keep(test, items).value[0])
    decreases |items|
  {
    if items != [] {
      FirstIsHeadOfKeep(test, items[1..]);
    }
  }

  /** Items after the first passing one are never inspected: whatever follows it, even an
      item that would throw, the answer is the same. */
  lemma FirstIgnoresRest(test: Value -> Result<bool>, items: seq<Value>, k: nat, rest: seq<Value>)
    requires k < |items| && test(items[k]) == Ok(true)
    requires forall j :: 0 <= j < k ==> test(items[j]) == Ok(false)
    ensures First(test, items + rest) == First(test, items)
  {
    FirstFindsEarliest(test, items, k);
    assert forall j :: 0 <= j <= k ==> (items + rest)[j] == items[j];
    FirstFindsEarliest(test, items + rest, k);
  }

  /** `arrayFind({array, path, value, operator})`: the parameter check, the operator lookup,
      then `array.find` with the shared item test on strings as they are. */
  function Find(list: Value, path: string, value: Value, operator: string): (r: Result<Value>)
    ensures MissingParameter(list, path, value, operator) ==> r == Err(MissingFind)
    ensures !MissingParameter(list, path, value, operator) && ParseOp(operator).None? ==> r == Err(InvalidOperator)
  {
    if MissingParameter(list, path, value, operator) then Err(MissingFind)
    else match ParseOp(operator)
      case None => Err(InvalidOperator)
      case Some(op) =>
        if !list.Arr? then Err(NotAFunction("array.find"))
        else First(item => Test(op, path, value, AsText, item), list.items)
  }

  /** Find and filter agree: whenever the filter with dates off succeeds, find returns the
      first item the filter keeps, or `undefined` when it keeps none. */
  lemma FindIsFirstOfFilter(list: Value, path: string, value: Value, operator: string)
    requires Filter(list, path, value, operator, AsText).Ok?
    ensures var kept := Filter(list, path, value, operator, AsText).value;
            Find(list, path, value, operator) == Ok(if kept == [] then Undef else kept[0])
  {
    var op := ParseOp(operator).value;
    FirstIsHeadOfKeep(item => Test(op, path, value, AsText, item), list.items);
  }
}
