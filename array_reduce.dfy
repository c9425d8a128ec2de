/** The array reduce action: the items of an array (or their values at a path) folded from the
    left with one of a few named reducers. */
module ArrayReduce {
  import opened Wrappers
  import opened Numbers
  import opened Js
  import opened Path

  const MissingParameters := "Array Reduce: Missing required parameters (array and reducer)"

  function InvalidReducer(name: string): string {
    "Array Reduce: Invalid reducer \"" + name + "\""
  }

  /** The reducers; `Count` exists only in the corrected table. */
  datatype Reducer = Sum | Min | Max | Concat | Count

  /** The reducer table as written: it has no entry for `count`. */
  function ReducerAsWritten(name: string): (r: Option<Reducer>)
    ensures r.Some? <==> name == "sum" || name == "min" || name == "max" || name == "concat"
    ensures r != Some(Count)
  {
    match name
    case "sum" => Some(Sum)
    case "min" => Some(Min)
    case "max" => Some(Max)
    case "concat" => Some(Concat)
    case _ => None
  }

  /** The reducer table with the `count` entry that the table of starting values provides for. */
  function ReducerOf(name: string): (r: Option<Reducer>)
    ensures r.Some? <==> ReducerAsWritten(name).Some? || name == "count"
    ensures name != "count" ==> r == ReducerAsWritten(name)
  {
    if name == "count" then Some(Count) else ReducerAsWritten(name)
  }

  /** The table of starting values, `defaultInits`. */
  function DefaultStart(f: Reducer): Value {
    match f
    case Sum => Int(0)
    case Min => Number(PosInf)
    case Max => Number(NegInf)
    case Concat => Arr([])
    case Count => Int(0)
  }

  /** `acc.concat(val)`: an array spreads an array argument and appends anything else; a string
      appends the text of its argument; other values have no `concat`. */
  function ConcatStep(acc: Value, val: Value): (r: Result<Value>)
    ensures r.Ok? <==> acc.Arr? || acc.Str?
  {
    match acc
    case Arr(xs) => Ok(Arr(xs + if val.Arr? then val.items else [val]))
    case Str(s) => Ok(Str(s + ToStr(val)))
    case Undef => Err(ReadError(acc, "concat"))
    case Null => Err(ReadError(acc, "concat"))
    case _ => Err(NotAFunction("acc.concat"))
  }

  /** One reducer step. */
  function Step(f: Reducer, acc: Value, val: Value): (r: Result<Value>)
    ensures f != Concat ==> r.Ok?
  {
    match f
    case Sum => Ok(Add(acc, Number(ToNumber(val))))
    case Min => Ok(Number(NumMin(ToNumber(acc), ToNumber(val))))
    case Max => Ok(Number(NumMax(ToNumber(acc), ToNumber(val))))
    case Concat => ConcatStep(acc, val)
    case Count => Ok(Add(acc, Int(1)))
  }

  /** The value an item contributes: its value at the path, or the item itself. */
  function ValueAt(item: Value, path: string): (r: Result<Value>)
    ensures path == [] ==> r == Ok(item)
  {
    if path != [] then TravelPath(item, path) else Ok(item)
  }

  /** `items.reduce((acc, item) => fn(acc, valueAt(item)), acc)`. */
  function Fold(f: Reducer, acc: Value, items: seq<Value>, path: string): (r: Result<Value>)
    decreases |items|
  {
    if items == [] then Ok(acc)
    else
      var val :- ValueAt(items[0], path);
      var next :- Step(f, acc, val);
      Fold(f, next, items[1..], path)
  }

  /** The accumulator's start: the given initial value unless it is `undefined`. */
  function Start(f: Reducer, initialValue: Value): (r: Value)
    ensures initialValue.Undef? ==> r == DefaultStart(f)
    ensures !initialValue.Undef? ==> r == initialValue
  {
    if !initialValue.Undef? then initialValue else DefaultStart(f)
  }

  /** `arrayReduce({array, path, reducer, initialValue})` as written. */
  function ReduceAsWritten(list: Value, path: string, reducer: Value, initialValue: Value): (r: Result<Value>)
    ensures !list.Arr? || !Truthy(reducer) ==> r == Err(MissingParameters)
    ensures list.Arr? && Truthy(reducer) && ReducerAsWritten(ToStr(reducer)).None? ==>
              r == Err(InvalidReducer(ToStr(reducer)))
  {
    if !list.Arr? || !Truthy(reducer) then Err(MissingParameters)
    else
      match ReducerAsWritten(ToStr(reducer))
      case None => Err(InvalidReducer(ToStr(reducer)))
      case Some(f) => Fold(f, Start(f, initialValue), list.items, path)
  }

  /** The action with a `count` reducer that adds one per item. */
  function Reduce(list: Value, path: string, reducer: Value, initialValue: Value): (r: Result<Value>)
    ensures !list.Arr? || !Truthy(reducer) ==> r == Err(MissingParameters)
    ensures list.Arr? && Truthy(reducer) && ReducerOf(ToStr(reducer)).None? ==>
              r == Err(InvalidReducer(ToStr(reducer)))
  {
    if !list.Arr? || !Truthy(reducer) then Err(MissingParameters)
    else
      match ReducerOf(ToStr(reducer))
      case None => Err(InvalidReducer(ToStr(reducer)))
      case Some(f) => Fold(f, Start(f, initialValue), list.items, path)
  }

  /** The two versions differ only on the name `count`. */
  lemma ReduceAgrees(list: Value, path: string, reducer: Value, initialValue: Value)
    requires ToStr(reducer) != "count"
    ensures Reduce(list, path, reducer, initialValue) == ReduceAsWritten(list, path, reducer, initialValue)
  {
  }

  /** As written, `count` has a starting value but no reducer, so it is always refused. */
  lemma CountRejectedAsWritten(items: seq<Value>, path: string, initialValue: Value)
    ensures DefaultStart(Count) == Int(0)
    ensures ReduceAsWritten(Arr(items), path, Str("count"), initialValue) == Err(InvalidReducer("count"))
  {
  }

  /** Folding over a concatenation folds over the first part, then over the second from where
      the first stopped; an error in the first part ends the fold. */
  lemma {:induction false} FoldAppend(f: Reducer, acc: Value, a: seq<Value>, b: seq<Value>, path: string)
    ensures Fold(f, acc, a, path).Ok? ==> Fold(f, acc, a + b, path) == Fold(f, Fold(f, acc, a, path).value, b, path)
    ensures Fold(f, acc, a, path).Err? ==> Fold(f, acc, a + b, path) == Fold(f, acc, a, path)
    decreases |a|
  {
    if a == [] {
      assert a + b == b;
    } else {
      assert (a + b)[0] == a[0] && (a + b)[1..] == a[1..] + b;
      var val := ValueAt(a[0], path);
      if val.Ok? {
        var next := Step(f, acc, val.value);
        if next.Ok? {
          FoldAppend(f, next.value, a[1..], b, path);
        }
      }
    }
  }

  /** With a path, the fold sees the values at the path in place of the items. */
  lemma {:induction false} FoldThroughPath(f: Reducer, acc: Value, items: seq<Value>, vals: seq<Value>, path: string)
    requires |vals| == |items|
    requires forall i :: 0 <= i < |items| ==> ValueAt(items[i], path) == Ok(vals[i])
    ensures Fold(f, acc, items, path) == Fold(f, acc, vals, "")
    decreases |items|
  {
    if items != [] {
      var next := Step(f, acc, vals[0]);
      if next.Ok? {
        FoldThroughPath(f, next.value, items[1..], vals[1..], path);
      }
    }
  }

  /** Counting from `k` adds the number of items. */
  lemma {:induction false} FoldCount(k: int, items: seq<Value>)
    ensures Fold(Count, Int(k), items, "") == Ok(Int(k + |items|))
    decreases |items|
  {
    if items != [] {
      assert Step(Count, Int(k), items[0]) == Ok(Int(k + 1));
      FoldCount(k + 1, items[1..]);
    }
  }

  /** With the `count` entry, the default start counts the items of the array. */
  lemma ReduceCount(items: seq<Value>)
    ensures Reduce(Arr(items), "", Str("count"), Undef) == Ok(Int(|items|))
  {
    FoldCount(0, items);
  }

  /** An empty array reduces to the start. */
  lemma ReduceEmpty(path: string, reducer: Value, initialValue: Value)
    requires Truthy(reducer) && ReducerOf(ToStr(reducer)).Some?
    ensures Reduce(Arr([]), path, reducer, initialValue) == Ok(Start(ReducerOf(ToStr(reducer)).value, initialValue))
  {
  }

  /** The numbers of a sequence of reals. */
  function Nums(xs: seq<real>): (r: seq<Value>)
    ensures |r| == |xs| && forall i :: 0 <= i < |xs| ==> r[i] == Number(Fin(xs[i]))
  {
    seq(|xs|, i requires 0 <= i < |xs| => Number(Fin(xs[i])))
  }

  function Total(xs: seq<real>): real {
    if xs == [] then 0.0 else xs[0] + Total(xs[1..])
  }

  /** Summing finite numbers from `s` gives `s` plus their total. */
  lemma {:induction false} FoldSum(s: real, xs: seq<real>)
    ensures Fold(Sum, Number(Fin(s)), Nums(xs), "") == Ok(Number(Fin(s + Total(xs))))
    decreases |xs|
  {
    if xs != [] {
      assert Nums(xs)[1..] == Nums(xs[1..]);
      assert Step(Sum, Number(Fin(s)), Nums(xs)[0]) == Ok(Number(Fin(s + xs[0])));
      FoldSum(s + xs[0], xs[1..]);
    }
  }

  /** The sum reducer with its default start adds the numbers up. */
  lemma ReduceSum(xs: seq<real>)
    ensures Reduce(Arr(Nums(xs)), "", Str("sum"), Undef) == Ok(Number(Fin(Total(xs))))
  {
    FoldSum(0.0, xs);
  }

  /** Taking minima of finite numbers from `a` ends at one of them (or `a`), no larger than any. */
  lemma {:induction false} FoldMin(a: real, xs: seq<real>)
    ensures var r := Fold(Min, Number(Fin(a)), Nums(xs), "");
            r.Ok? && r.value.Number? && r.value.n.Fin? &&
            r.value.n.r <= a && (forall i :: 0 <= i < |xs| ==> r.value.n.r <= xs[i]) &&
            (r.value.n.r == a || exists i :: 0 <= i < |xs| && r.value.n.r == xs[i])
    decreases |xs|
  {
    if xs != [] {
      var m := if xs[0] < a then xs[0] else a;
      assert Nums(xs)[1..] == Nums(xs[1..]);
      assert Step(Min, Number(Fin(a)), Nums(xs)[0]) == Ok(Number(Fin(m)));
      FoldMin(m, xs[1..]);
      var r := Fold(Min, Number(Fin(m)), Nums(xs[1..]), "").value.n.r;
      forall i | 1 <= i < |xs| ensures r <= xs[i] { assert xs[i] == xs[1..][i - 1]; }
      if r != m {
        var j :| 0 <= j < |xs[1..]| && r == xs[1..][j];
        assert r == xs[j + 1];
      }
    }
  }

  /** The min reducer with its default start gives the least of a non-empty list of numbers. */
  lemma ReduceMin(xs: seq<real>)
    requires xs != []
    ensures var r := Reduce(Arr(Nums(xs)), "", Str("min"), Undef);
            r.Ok? && r.value.Number? && r.value.n.Fin? &&
            (forall i :: 0 <= i < |xs| ==> r.value.n.r <= xs[i]) &&
            (exists i :: 0 <= i < |xs| && r.value.n.r == xs[i])
  {
    assert Nums(xs)[1..] == Nums(xs[1..]);
    assert Step(Min, Number(PosInf), Nums(xs)[0]) == Ok(Number(Fin(xs[0])));
    FoldMin(xs[0], xs[1..]);
    var r := Fold(Min, Number(Fin(xs[0])), Nums(xs[1..]), "").value.n.r;
    forall i | 1 <= i < |xs| ensures r <= xs[i] { assert xs[i] == xs[1..][i - 1]; }
    if r != xs[0] {
      var j :| 0 <= j < |xs[1..]| && r == xs[1..][j];
      assert r == xs[j + 1];
    }
  }

  /** Taking maxima of finite numbers from `a` ends at one of them (or `a`), no smaller than any. */
  lemma {:induction false} FoldMax(a: real, xs: seq<real>)
    ensures var r := Fold(Max, Number(Fin(a)), Nums(xs), "");
            r.Ok? && r.value.Number? && r.value.n.Fin? &&
            a <= r.value.n.r && (forall i :: 0 <= i < |xs| ==> xs[i] <= r.value.n.r) &&
            (r.value.n.r == a || exists i :: 0 <= i < |xs| && r.value.n.r == xs[i])
    decreases |xs|
  {
    if xs != [] {
      var m := if a < xs[0] then xs[0] else a;
      assert Nums(xs)[1..] == Nums(xs[1..]);
      assert Step(Max, Number(Fin(a)), Nums(xs)[0]) == Ok(Number(Fin(m)));
      FoldMax(m, xs[1..]);
      var r := Fold(Max, Number(Fin(m)), Nums(xs[1..]), "").value.n.r;
      forall i | 1 <= i < |xs| ensures xs[i] <= r { assert xs[i] == xs[1..][i - 1]; }
      if r != m {
        var j :| 0 <= j < |xs[1..]| && r == xs[1..][j];
        assert r == xs[j + 1];
      }
    }
  }

  /** The max reducer with its default start gives the greatest of a non-empty list of numbers. */
  lemma ReduceMax(xs: seq<real>)
    requires xs != []
    ensures var r := Reduce(Arr(Nums(xs)), "", Str("max"), Undef);
            r.Ok? && r.value.Number? && r.value.n.Fin? &&
            (forall i :: 0 <= i < |xs| ==> xs[i] <= r.value.n.r) &&
            (exists i :: 0 <= i < |xs| && r.value.n.r == xs[i])
  {
    assert Nums(xs)[1..] == Nums(xs[1..]);
    assert Step(Max, Number(NegInf), Nums(xs)[0]) == Ok(Number(Fin(xs[0])));
    FoldMax(xs[0], xs[1..]);
    var r := Fold(Max, Number(Fin(xs[0])), Nums(xs[1..]), "").value.n.r;
    forall i | 1 <= i < |xs| ensures xs[i] <= r { assert xs[i] == xs[1..][i - 1]; }
    if r != xs[0] {
      var j :| 0 <= j < |xs[1..]| && r == xs[1..][j];
      assert r == xs[j + 1];
    }
  }

  /** Concatenating values that are not arrays onto an array appends them in order. */
  lemma {:induction false} FoldConcat(acc: seq<Value>, items: seq<Value>)
    requires forall i :: 0 <= i < |items| ==> !items[i].Arr?
    ensures Fold(Concat, Arr(acc), items, "") == Ok(Arr(acc + items))
    decreases |items|
  {
    if items != [] {
      FoldConcat(acc + [items[0]], items[1..]);
      assert acc + [items[0]] + items[1..] == acc + items;
    } else {
      assert acc + items == acc;
    }
  }

  /** The concat reducer with its default start collects the items of an array without nested
      arrays. */
  lemma ReduceConcat(items: seq<Value>)
    requires forall i :: 0 <= i < |items| ==> !items[i].Arr?
    ensures Reduce(Arr(items), "", Str("concat"), Undef) == Ok(Arr(items))
  {
    FoldConcat([], items);
    assert [] + items == items;
  }
}
