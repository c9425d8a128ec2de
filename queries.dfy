/** The paginated read of `getAll` (shared queries module) and of its copies `getAllRecords` in
    the import actions: pages of `take` records are requested from `skip` on and appended to
    the results, and a data set of more than 20000 records aborts the read. The GraphQL call
    enters the model as a page oracle. */
module Queries {
  import opened Wrappers
  import opened Text
  import opened Js
  import opened Helpers
  import opened Seqs

  /** What one request returns: nothing (a falsy response), or the page of records and the
      total count the data source reports. */
  datatype Response = NoResponse | Page(results: seq<Value>, totalCount: int)

  /** The largest data set the read accepts. */
  const Ceiling := 20000

  /** The read as a function of the page oracle: the results accumulated so far, followed by
      every page returned until a response is missing, a page is empty, or the next offset
      passes the reported total. */
  function AllRecords(fetch: (int, int) -> Response, skip: int, take: int, results: seq<Value>,
                      tooLarge: string): (r: Result<seq<Value>>)
    requires take > 0
    decreases Ceiling - skip
  {
    match fetch(skip, take)
    case NoResponse => Ok(results)
    case Page(page, total) =>
      if total > Ceiling then Err(tooLarge)
      else if page == [] then Ok(results)
      else if skip + take <= total then AllRecords(fetch, skip + take, take, results + page, tooLarge)
      else Ok(results + page)
  }

  /** `getAll(gqlQuery, skip, take, results)` with the recursion written as the loop it is:
      `skip` advances by `take` after every page and `results` is rebound to the longer list. */
  method GetAll(fetch: (int, int) -> Response, skip0: int, take: int, results0: seq<Value>,
                tooLarge: string) returns (r: Result<seq<Value>>)
    requires take > 0
    ensures r == AllRecords(fetch, skip0, take, results0, tooLarge)
  {
    var skip, results := skip0, results0;
    while true
      invariant AllRecords(fetch, skip, take, results, tooLarge) == AllRecords(fetch, skip0, take, results0, tooLarge)
      decreases Ceiling - skip
    {
      var response := fetch(skip, take);
      if response.NoResponse? {
        return Ok(results);
      }
      if response.totalCount > Ceiling {
        return Err(tooLarge);
      }
      skip := skip + take;
      if |response.results| == 0 {
        return Ok(results);
      }
      results := results + response.results;
      if !(skip <= response.totalCount) {
        return Ok(results);
      }
    }
  }

  /** The records read so far are never lost or reordered: they are a prefix of the result. */
  lemma {:induction false} AllRecordsExtends(fetch: (int, int) -> Response, skip: int, take: int,
                                             results: seq<Value>, tooLarge: string)
    requires take > 0
    ensures AllRecords(fetch, skip, take, results, tooLarge).Ok? ==>
              results <= AllRecords(fetch, skip, take, results, tooLarge).value
    decreases Ceiling - skip
  {
    match fetch(skip, take)
    case NoResponse =>
    case Page(page, total) =>
      if total <= Ceiling && page != [] && skip + take <= total {
        AllRecordsExtends(fetch, skip + take, take, results + page, tooLarge);
      }
  }

  /** The window of `rows` a consistent data source returns for `skip` and `take`. */
  function Window(rows: seq<Value>, skip: nat, take: nat): (w: seq<Value>)
    ensures |w| <= take
  {
    if skip >= |rows| then [] else if skip + take <= |rows| then rows[skip..skip + take] else rows[skip..]
  }

  /** Against a data source holding `rows`, at most 20000 of them, the read from any offset
      returns the records from that offset on, in order, after those already read. */
  lemma {:induction false} AllRecordsOfRows(fetch: (int, int) -> Response, rows: seq<Value>,
                                            skip: nat, take: int, results: seq<Value>, tooLarge: string)
    requires take > 0 && |rows| <= Ceiling && skip <= |rows|
    requires forall s: nat, t: nat :: t > 0 ==> fetch(s, t) == Page(Window(rows, s, t), |rows|)
    ensures AllRecords(fetch, skip, take, results, tooLarge) == Ok(results + rows[skip..])
    decreases |rows| - skip
  {
    var page := Window(rows, skip, take);
    assert fetch(skip, take) == Page(page, |rows|);
    if skip == |rows| {
      assert rows[skip..] == [];
      assert results + [] == results;
    } else if skip + take <= |rows| {
      assert page == rows[skip..skip + take] && page != [];
      AllRecordsOfRows(fetch, rows, skip + take, take, results + page, tooLarge);
      SliceJoin(rows, skip, skip + take);
      Regroup(results, page, rows[skip + take..]);
    } else {
      assert page == rows[skip..] && page != [];
    }
  }

  /** Reading a whole data source from offset 0 returns exactly its records. */
  lemma AllRecordsReadsAll(fetch: (int, int) -> Response, rows: seq<Value>, take: int, tooLarge: string)
    requires take > 0 && |rows| <= Ceiling
    requires forall s: nat, t: nat :: t > 0 ==> fetch(s, t) == Page(Window(rows, s, t), |rows|)
    ensures AllRecords(fetch, 0, take, [], tooLarge) == Ok(rows)
  {
    AllRecordsOfRows(fetch, rows, 0, take, [], tooLarge);
    assert [] + rows[0..] == rows;
  }

  /** A data source reporting more than 20000 records aborts the read on its first page. */
  lemma AllRecordsTooLarge(fetch: (int, int) -> Response, skip: int, take: int, results: seq<Value>,
                           tooLarge: string)
    requires take > 0
    requires fetch(skip, take).Page? && fetch(skip, take).totalCount > Ceiling
    ensures AllRecords(fetch, skip, take, results, tooLarge) == Err(tooLarge)
  {
  }

  // ---------------------------------------------------------------------------
  // The abort messages
  // ---------------------------------------------------------------------------

  const TooLargeBatching := "The number of records to update is too large. Please turn on batching for this step and select a batch size between 0 and 10.000."
  const TooLargeSplit := "The number of records to update is too large. Please split your import file into smaller files."

  /** The message of the ReferenceError a call of an undeclared name raises. */
  function NotDefined(name: string): string {
    name + " is not defined"
  }

  /** The abort of the shared `getAll` as written: the module calls `throwError` without
      declaring or importing it, so the call itself fails with a ReferenceError. */
  function SharedAbortAsWritten(): (m: string)
    ensures !Contains(m, TooLargeBatching)
  {
    var m := NotDefined("throwError");
    assert |m| < |TooLargeBatching|;
    IndexOfSpec(m, TooLargeBatching);
    m
  }

  /** The abort of the shared `getAll` with the shared `throwError` in scope: the text the
      2.2 copy throws, behind "Error: ". */
  function SharedAbort(): (m: string)
    ensures |m| > 7 && m[..7] == "Error: "
    ensures m[7..] == AbortV22()
  {
    ThrowErrorMessage(Text(TooLargeBatching))
  }

  /** The abort of `getAllRecords` in the 2.2 action, whose local `throwError` throws the JSON
      text of its argument. */
  function AbortV22(): string {
    JsonQuote(TooLargeBatching)
  }

  /** The abort of `getAllRecords` in the 2.1 and 1.0 actions. */
  function AbortV21(): string {
    JsonQuote(TooLargeSplit)
  }

  /** The shared read as written loses the explanation that the intended helper carries. */
  lemma SharedAbortDiffers()
    ensures SharedAbortAsWritten() != SharedAbort()
  {
    assert SharedAbortAsWritten()[0] == 't';
    assert SharedAbort()[0] == 'E';
  }
}
