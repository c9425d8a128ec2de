/** The entry points of the import actions (`importFile` of 3.2, `importCsv` of 2.2, 2.1 and
    1.0) and the step they run on one batch of lines (`processImportLines` of 3.2,
    `processRecords` of 2.2 and the inline body of 2.1): formatting, relation lookup, the
    read of the stored records, the record building and the bulk writes; in 3.2 and 2.2 the
    batches with the checkpoint record of the file. */
module ImportRun {
  import opened Wrappers
  import opened Text
  import opened Js
  import opened Helpers
  import opened Queries
  import opened ImportRecords
  import opened ImportMappings
  import opened ImportLookup
  import opened ImportFormat
  import opened ImportReconcile
  import opened ImportBatch
  import opened Seqs

  /** The four releases of the action. */
  datatype Release = R32 | R22 | R21 | R10

  /** How a release builds its records. */
  function VersionOf(release: Release): Version {
    match release
    case R32 => V3
    case R22 => V2
    case R21 => V2
    case R10 => V1
  }

  // ---------------------------------------------------------------------------
  // Errors
  // ---------------------------------------------------------------------------

  /** The message of the error `throwError(text)` throws: the shared helper of 3.2 gives
      "Error: " and the JSON text; the local helpers of the earlier releases give the JSON
      text alone. */
  function Raise(release: Release, text: string): (m: string)
    ensures release == R32 ==> m == "Error: " + JsonQuote(text)
    ensures release != R32 ==> m == JsonQuote(text)
  {
    if release == R32 then ThrowErrorMessage(Text(text)) else JsonQuote(text)
  }

  /** What the local `throwError` of 2.1 and 1.0 throws: the JSON text of its argument. An
      Error has no enumerable property of its own, so the JSON text of an Error is `{}`. */
  function ThrownV21(e: Thrown): (m: string)
    ensures e.Text? ==> m == JsonQuote(e.text)
    ensures e.Failure? ==> m == "{}"
  {
    match e
    case Text(t) => JsonQuote(t)
    case Failure(_) => "{}"
    case Errors(json) => json
  }

  /** What the local `throwError` of 2.1 and 1.0 logs: a text as it is; for anything else at
      most 2000 characters of the JSON text it throws. */
  function LoggedV21(e: Thrown): (m: string)
    ensures e.Text? ==> m == e.text
    ensures !e.Text? ==> |m| <= 2000 && |m| <= |ThrownV21(e)| && m == ThrownV21(e)[..|m|]
    ensures !e.Text? && |ThrownV21(e)| <= 2000 ==> m == ThrownV21(e)
  {
    match e
    case Text(t) => t
    case _ => var j := ThrownV21(e); j[..Min(2000, |j|)]
  }

  /** The `catch` of 2.1 and 1.0 as written: it hands the caught Error to the local
      `throwError`, which throws `{}` whatever the Error said. */
  function CatchV21AsWritten(inner: string): (m: string) {
    ThrownV21(Failure(inner))
  }

  /** As written, every failure of a 2.1 or 1.0 import reaches the caller as the same `{}`. */
  lemma CatchV21LosesMessage(a: string, b: string)
    ensures CatchV21AsWritten(a) == CatchV21AsWritten(b) == "{}"
  {
  }

  /** The message an import fails with, given the message of the error its `catch` receives:
      "Error: " and that message in 3.2, and in 2.1 and 1.0 once corrected to do the same;
      the message itself in 2.2 (whose wrapper adds the stack, see README). */
  function Catch(release: Release, inner: string): (m: string)
    ensures release == R22 ==> m == inner
    ensures release != R22 && inner != "" ==> m == "Error: " + inner
  {
    if release == R22 then inner else ThrowErrorMessage(Failure(inner))
  }

  /** Corrected, different failures stay apart: the caller can tell them from each other. */
  lemma CatchKeepsMessage(release: Release, a: string, b: string)
    requires a != "" && b != "" && a != b
    ensures Catch(release, a) != Catch(release, b)
  {
    if release != R22 {
      assert Catch(release, a)[7..] == a;
      assert Catch(release, b)[7..] == b;
    }
  }

  /** The texts thrown on a missing URL. */
  function NoUrlText(release: Release): string {
    if release == R32 then "No import URL found." else "No CSV import URL found."
  }

  /** The texts thrown by the 50000-line guard. */
  function TooManyText(release: Release): string {
    match release
    case R32 => "The number of import lines is too large (more than 50000). Please split your import file into several smaller files."
    case R22 => "The number of records to import is too large (more than 50000 records). Please split your CSV file into several smaller files."
    case R21 => "The number of records to import is too large (more than 50000 records). Please split your import file into smaller files."
    case R10 => "The number of records to import is too large (more than 50000 records). Please split your import file into smaller files."
  }

  /** The texts thrown when deduplication names a column no mapping reads. */
  function NoUidText(release: Release): string {
    if release == R32 then
      "No unique identifier can be found in the mappings. Make sure you add the import column and property database name (in snake_case) in the mappings above!"
    else
      "No unique record identifier can be found in the mappings. Make sure you add the CSV column and property database name (in snake_case) in the mappings above!"
  }

  /** The TypeError of formatting a batch that is a single line (an object has no `map`). */
  function NotAList(release: Release): string {
    if release == R32 then NotAFunction("importLinesToSanitize.map") else NotAFunction("RecordsToSanitize.map")
  }

  /** The abort message of the paginated reads of each release. */
  function Abort(release: Release): string {
    match release
    case R32 => SharedAbort()
    case R22 => AbortV22()
    case R21 => AbortV21()
    case R10 => AbortV21()
  }

  /** The result text of a successful import. */
  function FinishedText(release: Release, lines: nat, created: nat, updated: nat): string {
    match release
    case R32 => "Finished processing " + IntToString(lines) + " import lines."
    case R22 => "Finished processing " + IntToString(lines) + " records."
    case R21 => "records created: " + IntToString(created) + ", records updated: " + IntToString(updated)
    case R10 => "records created: " + IntToString(created) + ", records updated: " + IntToString(updated)
  }

  /** The texts an import throws of itself: a missing URL, too many lines, no mapping for the
      unique column, no line to validate, a batch that is a single line, a read that is too
      large. They travel as data: each release's wording is `MessagesOf`. */
  datatype Messages = Messages(noUrl: string, tooMany: string, noUid: string, noLines: string,
                               notAList: string, tooLarge: string)

  const NoLinesText := "There are no import lines found. The required column validation could not be done"

  /** The wording of each release, as its `throwError` and its TypeErrors give it. */
  function MessagesOf(release: Release): Messages {
    Messages(Raise(release, NoUrlText(release)), Raise(release, TooManyText(release)),
             Raise(release, NoUidText(release)), Raise(release, NoLinesText), NotAList(release), Abort(release))
  }

  // ---------------------------------------------------------------------------
  // The step on one batch (3.2, 2.2, 2.1)
  // ---------------------------------------------------------------------------

  /** The releases that process their lines in a batch step. */
  type BatchRelease = r: Release | r != R10 witness R32

  /** What a batch is processed with: the release, the date library, the model, the property
      mappings as the compile left them, the compiled main and update mappings, the format
      and default mappings, the deduplication settings and the data source. */
  datatype Settings = Settings(release: BatchRelease, lib: DateLib, model: string, mappings: seq<Mapping>,
                               main: seq<Option<Mapping>>, updates: seq<Option<Mapping>>,
                               formats: seq<FormatMapping>, defaults: seq<DefaultMapping>,
                               deduplicate: bool, uniqueColumn: string, uniqueColumnType: string,
                               source: Source, messages: Messages)

  /** The paginated reads of a release. */
  function Read(s: Settings): Reader {
    Paginated(s.source, s.messages.tooLarge)
  }

  /** The columns the mappings read, in order. */
  function Keys(ms: seq<Mapping>): (r: seq<string>)
    ensures |r| == |ms| && forall i :: 0 <= i < |ms| ==> r[i] == ms[i].key
  {
    seq(|ms|, i requires 0 <= i < |ms| => ms[i].key)
  }

  /** One line formatted as the release formats it. */
  function FormatRow(s: Settings, row: Row): Row {
    if s.release == R32 then FormatLineV3(s.lib, row, Keys(s.mappings), s.formats)
    else FormatLineV2(s.lib, row, Keys(s.mappings), s.formats)
  }

  function Formatted(s: Settings, rows: seq<Row>): (r: seq<Row>)
    ensures |r| == |rows|
  {
    seq(|rows|, i requires 0 <= i < |rows| => FormatRow(s, rows[i]))
  }

  /** The compiled mappings that are there, in order (the compile leaves `undefined` for a
      value of three or more segments). */
  function Present(ms: seq<Option<Mapping>>): (r: seq<Mapping>)
    ensures |r| <= |ms|
    ensures (forall i :: 0 <= i < |ms| ==> ms[i].Some?) ==>
              |r| == |ms| && forall i :: 0 <= i < |ms| ==> r[i] == ms[i].value
  {
    if ms == [] then []
    else
      var rest := Present(ms[1..]);
      assert forall i :: 1 <= i < |ms| ==> ms[i] == ms[1..][i - 1];
      (if ms[0].Some? then [ms[0].value] else []) + rest
  }

  /** The lookup fails on a mapping the compile dropped, so a batch that gets past it has
      every mapping present. */
  lemma {:induction false} LookupDataNeedsAll(ms: seq<Option<Mapping>>, lines: seq<Row>, read: Reader)
    requires LookupData(ms, lines, read).Ok?
    ensures forall i :: 0 <= i < |ms| ==> ms[i].Some?
    decreases |ms|
  {
    if ms != [] {
      LookupDataNeedsAll(ms[1..], lines, read);
      assert forall i :: 1 <= i < |ms| ==> ms[i] == ms[1..][i - 1];
    }
  }

  /** The property names of the plain main mappings, read back with every stored record. */
  function PlainFields(main: seq<Mapping>): seq<string> {
    if main == [] then []
    else (if main[0].relation.None? then [main[0].value] else []) + PlainFields(main[1..])
  }

  /** The fields read back are exactly the property names of the mappings without relation. */
  lemma {:induction false} PlainFieldsSpec(main: seq<Mapping>)
    ensures forall f :: f in PlainFields(main) <==>
              exists i :: 0 <= i < |main| && main[i].relation.None? && main[i].value == f
  {
    if main != [] {
      PlainFieldsSpec(main[1..]);
      assert forall i :: 1 <= i < |main| ==> main[i] == main[1..][i - 1];
    }
  }

  /** The mapping of the unique column when deduplicating on a named column, or the error
      when no mapping reads that column. */
  function UniqueIdentifier(s: Settings): (r: Result<Option<Mapping>>)
    ensures r.Ok? && r.value.Some? ==> s.deduplicate && NamesColumn(r.value.value, s.uniqueColumn)
    ensures r.Err? <==> s.deduplicate && s.uniqueColumn != "" && FindUniqueIdentifier(s.mappings, s.uniqueColumn).None?
    ensures r.Err? ==> r.message == s.messages.noUid
  {
    if s.deduplicate && s.uniqueColumn != "" then
      match FindUniqueIdentifier(s.mappings, s.uniqueColumn)
      case None => Err(s.messages.noUid)
      case Some(m) => Ok(Some(m))
    else Ok(None)
  }

  /** The read of the stored records a batch may update: those whose unique property takes
      one of the batch's distinct unique cells, with their ids and plain properties. */
  function ExistingQuery(s: Settings, lines: seq<Row>, uid: Mapping, fields: seq<string>): Query {
    Query(s.model, Filter(uid.value, s.uniqueColumnType == "decimal", UniqueValues(lines, s.uniqueColumn)), ["id"] + fields)
  }

  /** The stored records of a batch: read only when deduplicating a non-empty batch; without a
      unique identifier (an empty column name) reading its `value` throws. */
  function Existing(s: Settings, lines: seq<Row>, uid: Option<Mapping>, fields: seq<string>): (r: Result<seq<Value>>)
    ensures !s.deduplicate || lines == [] ==> r == Ok([])
    ensures s.deduplicate && lines != [] && uid.None? ==> r == Err(ReadError(Undef, "value"))
  {
    if s.deduplicate && |lines| > 0 then
      if uid.None? then Err(ReadError(Undef, "value"))
      else Read(s)(ExistingQuery(s, lines, uid.value, fields))
    else Ok([])
  }

  /** The record building of a batch. */
  function BatchPlan(s: Settings, lookup: seq<LookupItem>, uid: Option<Mapping>, existing: seq<Value>): Plan {
    Plan(VersionOf(s.release), Present(s.main), Present(s.updates), if s.release == R32 then s.defaults else [],
         lookup, s.deduplicate, s.uniqueColumn, uid, existing)
  }

  /** What one batch comes to once its lines are formatted: the lookup lists, the unique
      identifier, the stored records, then the records to create and to update; or the first
      error. */
  function Build(s: Settings, lines: seq<Row>): Result<Prepared> {
    var lookup :- LookupData(s.main + s.updates, lines, Read(s));
    var uid :- UniqueIdentifier(s);
    var existing :- Existing(s, lines, uid, PlainFields(Present(s.main)));
    Prepare(BatchPlan(s, lookup, uid, existing), lines)
  }

  /** A batch never yields more records than it has lines. */
  lemma BuildCount(s: Settings, lines: seq<Row>)
    requires Build(s, lines).Ok?
    ensures |Build(s, lines).value.creates| + |Build(s, lines).value.updates| <= |lines|
  {
    var lookup := LookupData(s.main + s.updates, lines, Read(s)).value;
    var uid := UniqueIdentifier(s).value;
    var existing := Existing(s, lines, uid, PlainFields(Present(s.main))).value;
    OutcomesCount(BatchPlan(s, lookup, uid, existing), lines);
  }

  /** A batch with a relation mapping the compile dropped fails in the lookup. */
  lemma BuildNeedsAll(s: Settings, lines: seq<Row>)
    requires Build(s, lines).Ok?
    ensures forall i :: 0 <= i < |s.main| ==> s.main[i].Some?
    ensures forall i :: 0 <= i < |s.updates| ==> s.updates[i].Some?
  {
    BuildReadsLookup(s, lines);
    LookupNeedsBoth(s.main, s.updates, lines, Read(s));
  }

  lemma LookupNeedsBoth(main: seq<Option<Mapping>>, updates: seq<Option<Mapping>>, lines: seq<Row>, read: Reader)
    requires LookupData(main + updates, lines, read).Ok?
    ensures forall i :: 0 <= i < |main| ==> main[i].Some?
    ensures forall i :: 0 <= i < |updates| ==> updates[i].Some?
  {
    var all := main + updates;
    LookupDataNeedsAll(all, lines, read);
    forall i | 0 <= i < |main| ensures main[i].Some? {
      assert all[i] == main[i];
    }
    forall i | 0 <= i < |updates| ensures updates[i].Some? {
      assert all[|main| + i] == updates[i];
    }
  }

  lemma BuildReadsLookup(s: Settings, lines: seq<Row>)
    requires Build(s, lines).Ok?
    ensures LookupData(s.main + s.updates, lines, Read(s)).Ok?
  {
  }

  /** What one batch comes to: its lines formatted, then built. A batch that is a line rather
      than a list of lines fails at once. */
  function BatchOutcome(s: Settings, b: Batch): Result<Prepared> {
    match b
    case Line(_) => Err(s.messages.notAList)
    case Lines(rows) => Build(s, Formatted(s, rows))
  }

  /** The batch step of the settings, as a function of the batch. */
  function StepOf(s: Settings): Batch -> Result<Prepared> {
    b => BatchOutcome(s, b)
  }

  /** The step never yields more records than the batch has lines. */
  lemma StepCount(s: Settings)
    ensures forall b :: StepOf(s)(b).Ok? ==>
              b.Lines? && |StepOf(s)(b).value.creates| + |StepOf(s)(b).value.updates| <= |b.rows|
  {
    forall b | StepOf(s)(b).Ok?
      ensures b.Lines? && |StepOf(s)(b).value.creates| + |StepOf(s)(b).value.updates| <= |b.rows|
    {
      BuildCount(s, Formatted(s, b.rows));
    }
  }

  /** The lines of a batch copied into an array and formatted in place, as
      `formatImportLineValues` (3.2) or `formatCSVRecordValues` (2.2, 2.1) do. */
  method FormatBatch(s: Settings, rows: seq<Row>) returns (lines: seq<Row>)
    ensures lines == Formatted(s, rows)
  {
    var a := new Row[|rows|](i requires 0 <= i < |rows| => rows[i]);
    if s.release == R32 {
      FormatImportLineValues(s.lib, a, Keys(s.mappings), s.formats);
    } else {
      FormatCSVRecordValues(s.lib, a, Keys(s.mappings), s.formats);
    }
    lines := a[..];
  }

  /** The rest of `processImportLines` / `processRecords`: the lookup lists, the unique
      identifier, the stored records and the record building. */
  method BuildBatch(s: Settings, lines: seq<Row>) returns (r: Result<Prepared>)
    ensures r == Build(s, lines)
  {
    var lookup := GetRelationLookupData(s.main + s.updates, lines, Read(s));
    if lookup.Err? {
      return Err(lookup.message);
    }
    var uid := UniqueIdentifier(s);
    if uid.Err? {
      return Err(uid.message);
    }
    var existing := Existing(s, lines, uid.value, PlainFields(Present(s.main)));
    if existing.Err? {
      return Err(existing.message);
    }
    r := PrepareImportLines(BatchPlan(s, lookup.value, uid.value, existing.value), lines);
  }

  /** `processImportLines` / `processRecords` on one batch, ending with the bulk writes. */
  method ProcessBatch(store: Store, s: Settings, b: Batch) returns (r: Result<Prepared>)
    modifies store
    ensures r == BatchOutcome(s, b)
    ensures store.checkpoints == old(store.checkpoints)
    ensures store.writes == old(store.writes) + (if r.Ok? then BatchWrites(r.value) else [])
  {
    if b.Line? {
      return Err(s.messages.notAList);
    }
    var lines := FormatBatch(s, b.rows);
    r := BuildBatch(s, lines);
    if r.Ok? {
      store.Submit(BatchWrites(r.value));
    }
  }

  // ---------------------------------------------------------------------------
  // The batches and the checkpoint (3.2, 2.2)
  // ---------------------------------------------------------------------------

  /** A run over the batches from some index: the writes done, the index of the batch where
      it stopped, and the error that stopped it, if any. */
  datatype Run = Run(writes: seq<Write>, stop: nat, error: Option<string>)

  /** The batches from `i` on, processed by `step` one after the other up to the first that
      fails. */
  function RunFrom(step: Batch -> Result<Prepared>, batches: seq<Batch>, i: nat): Run
    decreases |batches| - i
  {
    if i >= |batches| then Run([], i, None)
    else
      match step(batches[i])
      case Err(e) => Run([], i, Some(e))
      case Ok(p) =>
        var rest := RunFrom(step, batches, i + 1);
        Run(BatchWrites(p) + rest.writes, rest.stop, rest.error)
  }

  /** A run stops at the first failing batch, with that batch's error; it completes exactly
      when no batch from `i` on fails. */
  lemma {:induction false} RunStops(step: Batch -> Result<Prepared>, batches: seq<Batch>, i: nat)
    ensures var run := RunFrom(step, batches, i);
            run.error.None? <==> forall k :: i <= k < |batches| ==> step(batches[k]).Ok?
    ensures var run := RunFrom(step, batches, i);
            run.error.Some? ==>
              i <= run.stop < |batches| && step(batches[run.stop]) == Err(run.error.value) &&
              forall k :: i <= k < run.stop ==> step(batches[k]).Ok?
    decreases |batches| - i
  {
    if i < |batches| && step(batches[i]).Ok? {
      RunStops(step, batches, i + 1);
    }
  }

  /** Resuming at the batch where a run stopped does the rest of the work once: the writes of
      the failed run followed by those of the resumed run are the writes of a run that did not
      stop, provided the batches before the stop come out as before. */
  lemma {:induction false} ResumeCompletes(step1: Batch -> Result<Prepared>, step2: Batch -> Result<Prepared>,
                                           batches: seq<Batch>, i: nat)
    requires RunFrom(step1, batches, i).error.Some?
    requires forall k :: i <= k < RunFrom(step1, batches, i).stop && k < |batches| ==> step2(batches[k]) == step1(batches[k])
    ensures var first := RunFrom(step1, batches, i);
            var second := RunFrom(step2, batches, first.stop);
            RunFrom(step2, batches, i) == Run(first.writes + second.writes, second.stop, second.error)
    decreases |batches| - i
  {
    var first := RunFrom(step1, batches, i);
    RunStops(step1, batches, i);
    RunFromUnfold(step1, batches, i);
    RunFromUnfold(step2, batches, i);
    if i < first.stop {
      var p := step1(batches[i]).value;
      ResumeCompletes(step1, step2, batches, i + 1);
      var second := RunFrom(step2, batches, first.stop);
      Regroup(BatchWrites(p), RunFrom(step1, batches, i + 1).writes, second.writes);
    } else {
      AppendEmpty(RunFrom(step2, batches, i).writes);
    }
  }

  /** The records a list of writes submits. */
  function RecordCount(ws: seq<Write>): nat
    decreases |ws|
  {
    if ws == [] then 0 else |ws[0].records| + RecordCount(ws[1..])
  }

  lemma {:induction false} RecordCountAppend(a: seq<Write>, b: seq<Write>)
    ensures RecordCount(a + b) == RecordCount(a) + RecordCount(b)
    decreases |a|
  {
    if a == [] {
      assert a + b == b;
    } else {
      assert (a + b)[0] == a[0];
      assert (a + b)[1..] == a[1..] + b;
      RecordCountAppend(a[1..], b);
    }
  }

  /** The writes of a prepared batch submit each of its records once. */
  lemma BatchWritesCount(p: Prepared)
    ensures RecordCount(BatchWrites(p)) == |p.creates| + |p.updates|
  {
    var w := BatchWrites(p);
    if p.creates != [] && p.updates != [] {
      assert w == [CreateMany(StripIds(p.creates)), UpsertMany(p.updates)];
      assert w[1..] == [UpsertMany(p.updates)];
      assert w[1..][1..] == [];
      assert RecordCount(w[1..]) == |p.updates| + RecordCount(w[1..][1..]);
    } else if p.creates != [] {
      assert w == [CreateMany(StripIds(p.creates))];
      assert w[1..] == [];
    } else if p.updates != [] {
      assert w == [UpsertMany(p.updates)];
      assert w[1..] == [];
    }
  }

  /** A run submits no more records than its batches hold lines, when no batch yields more
      records than it holds lines. */
  lemma {:induction false} RunRecordCount(step: Batch -> Result<Prepared>, batches: seq<Batch>, i: nat)
    requires i <= |batches|
    requires forall b :: step(b).Ok? ==> b.Lines? && |step(b).value.creates| + |step(b).value.updates| <= |b.rows|
    ensures RecordCount(RunFrom(step, batches, i).writes) <= |Flatten(batches[i..])|
    decreases |batches| - i
  {
    if i < |batches| && step(batches[i]).Ok? {
      var p := step(batches[i]).value;
      RunRecordCount(step, batches, i + 1);
      RecordCountAppend(BatchWrites(p), RunFrom(step, batches, i + 1).writes);
      BatchWritesCount(p);
      assert batches[i..][0] == batches[i];
      assert batches[i..][1..] == batches[i + 1..];
    }
  }

  /** With a batch size that is not positive, the batches are the lines themselves and a run
      over a non-empty file fails at its first batch without writing anything. */
  lemma RunOfNonPositiveSize(s: Settings, lines: seq<Row>, size: int)
    requires size <= 0 && lines != []
    ensures RunFrom(StepOf(s), SplitArray(lines, size), 0) == Run([], 0, Some(s.messages.notAList))
  {
    assert SplitArray(lines, size)[0] == Line(lines[0]);
  }

  /** Where a run over the batches of a file starts: the stored offset, or the first batch. */
  function StartOf(checkpoints: map<string, nat>, url: string): nat {
    if url in checkpoints then checkpoints[url] else 0
  }

  /** The batched branch: the checkpoint record of the file is found (or created at offset 0)
      and the batches are processed from its offset on. */
  method RunBatches(store: Store, s: Settings, url: string, batches: seq<Batch>) returns (error: Option<string>)
    modifies store
    ensures var run := RunFrom(StepOf(s), batches, StartOf(old(store.checkpoints), url));
            error == run.error &&
            store.writes == old(store.writes) + run.writes &&
            store.checkpoints == if run.error.None? then old(store.checkpoints) - {url}
                                 else old(store.checkpoints)[url := run.stop]
  {
    var start := StartOf(store.checkpoints, url);
    if url !in store.checkpoints {
      store.CreateCheckpoint(url);
      assert store.checkpoints - {url} == old(store.checkpoints) - {url};
    }
    StepOfSteps(s);
    error := ProcessFrom(store, s, StepOf(s), url, batches, start);
  }

  /** `step` processes every batch as the settings do. */
  ghost predicate StepsAs(s: Settings, step: Batch -> Result<Prepared>) {
    forall b {:trigger BatchOutcome(s, b)} :: step(b) == BatchOutcome(s, b)
  }

  lemma StepOfSteps(s: Settings)
    ensures StepsAs(s, StepOf(s))
  {
  }

  /** One turn of the loop: the batch processed, then on success the offset set past it. */
  method Advance(store: Store, s: Settings, ghost step: Batch -> Result<Prepared>, url: string, b: Batch, i: nat)
    returns (p: Result<Prepared>)
    requires StepsAs(s, step)
    modifies store
    ensures p == step(b)
    ensures store.writes == old(store.writes) + (if p.Ok? then BatchWrites(p.value) else [])
    ensures store.checkpoints == if p.Ok? then old(store.checkpoints)[url := i + 1] else old(store.checkpoints)
  {
    p := ProcessBatch(store, s, b);
    if p.Ok? {
      store.SetOffset(url, i + 1);
    }
  }

  /** One batch of a run: it stops there on an error, and else its writes come first. */
  lemma RunFromUnfold(step: Batch -> Result<Prepared>, batches: seq<Batch>, i: nat)
    requires i < |batches|
    ensures step(batches[i]).Err? ==> RunFrom(step, batches, i) == Run([], i, Some(step(batches[i]).message))
    ensures step(batches[i]).Ok? ==>
              var next := RunFrom(step, batches, i + 1);
              RunFrom(step, batches, i) == Run(BatchWrites(step(batches[i]).value) + next.writes, next.stop, next.error)
  {
  }

  /** The writes done so far, extended by those of one more batch, still precede the rest. */
  ghost method Carry(written: seq<Write>, ws: seq<Write>, rest: seq<Write>) returns (r: seq<Write>)
    ensures r == written + ws
    ensures written + (ws + rest) == r + rest
  {
    r := written + ws;
  }

  lemma UpdateSame(m: map<string, nat>, k: string)
    requires k in m
    ensures m[k := m[k]] == m
  {
  }

  lemma UpdateTwice(m: map<string, nat>, k: string, u: nat, v: nat)
    ensures m[k := u][k := v] == m[k := v]
  {
  }

  lemma UpdateRemove(m: map<string, nat>, k: string, u: nat)
    ensures m[k := u] - {k} == m - {k}
  {
  }

  /** The loop over the batches from the stored offset: each batch is processed and the offset
      advanced past it, and the record is deleted at the end. A failing batch stops the loop
      with the offset at that batch, so that the next run resumes there. */
  method ProcessFrom(store: Store, s: Settings, ghost step: Batch -> Result<Prepared>, url: string,
                     batches: seq<Batch>, start: nat) returns (error: Option<string>)
    requires StepsAs(s, step)
    requires url in store.checkpoints && store.checkpoints[url] == start
    modifies store
    ensures var run := RunFrom(step, batches, start);
            error == run.error &&
            store.writes == old(store.writes) + run.writes &&
            store.checkpoints == if run.error.None? then old(store.checkpoints) - {url}
                                 else old(store.checkpoints)[url := run.stop]
  {
    ghost var run := RunFrom(step, batches, start);
    ghost var written: seq<Write> := [];
    AppendEmpty(run.writes);
    UpdateSame(store.checkpoints, url);
    var i := start;
    while i < |batches|
      invariant start <= i
      invariant run.writes == written + RunFrom(step, batches, i).writes
      invariant run.stop == RunFrom(step, batches, i).stop && run.error == RunFrom(step, batches, i).error
      invariant store.writes == old(store.writes) + written
      invariant store.checkpoints == old(store.checkpoints)[url := i]
      decreases |batches| - i
    {
      var p := Advance(store, s, step, url, batches[i], i);
      RunFromUnfold(step, batches, i);
      if p.Err? {
        AppendEmpty(written);
        return Some(p.message);
      }
      written := Carry(written, BatchWrites(p.value), RunFrom(step, batches, i + 1).writes);
      UpdateTwice(old(store.checkpoints), url, i, i + 1);
      i := i + 1;
    }
    AppendEmpty(written);
    store.DeleteCheckpoint(url);
    UpdateRemove(old(store.checkpoints), url, i);
    error := None;
  }

  // ---------------------------------------------------------------------------
  // The required columns (3.2)
  // ---------------------------------------------------------------------------

  /** The starred keys of the mappings whose column, with or without the star, is not among
      the columns of the first line, in mapping order. */
  function MissingColumns(first: Row, ms: seq<Mapping>): seq<string> {
    if ms == [] then []
    else (if Lacks(first, ms[0].key) then [ms[0].key] else []) + MissingColumns(first, ms[1..])
  }

  /** A starred column that the first line has in neither spelling. */
  predicate Lacks(first: Row, k: string) {
    Starred(k) && k !in first && Unstarred(k) !in first
  }

  /** A column is reported exactly when a mapping has it as its key and the first line lacks
      it. */
  lemma MissingColumnsSpec(first: Row, ms: seq<Mapping>)
    ensures forall k :: k in MissingColumns(first, ms) <==> exists i :: 0 <= i < |ms| && ms[i].key == k && Lacks(first, k)
  {
    forall k ensures k in MissingColumns(first, ms) <==> exists i :: 0 <= i < |ms| && ms[i].key == k && Lacks(first, k) {
      MissingIn(first, ms, k);
    }
  }

  lemma {:induction false} MissingIn(first: Row, ms: seq<Mapping>, k: string)
    ensures k in MissingColumns(first, ms) <==> exists i :: 0 <= i < |ms| && ms[i].key == k && Lacks(first, k)
    decreases |ms|
  {
    if ms != [] {
      MissingIn(first, ms[1..], k);
      if k in MissingColumns(first, ms[1..]) {
        var j :| 0 <= j < |ms[1..]| && ms[1..][j].key == k && Lacks(first, k);
        assert ms[j + 1].key == k;
      }
      if exists i :: 0 <= i < |ms| && ms[i].key == k && Lacks(first, k) {
        var i :| 0 <= i < |ms| && ms[i].key == k && Lacks(first, k);
        if i > 0 {
          assert ms[1..][i - 1].key == k;
        }
      }
    }
  }

  /** Why the required-column check fails: no line at all, or starred columns missing. */
  datatype Unmet = NoLines | Missing(columns: seq<string>)

  /** The required-column check: it fails on an empty file, and on a first line that lacks a
      starred column in both spellings, naming every such column. */
  function RequiredColumns(lines: seq<Row>, ms: seq<Mapping>): (r: Option<Unmet>)
    ensures r.None? <==>
              (lines != [] &&
               forall i :: 0 <= i < |ms| && Starred(ms[i].key) ==> ms[i].key in lines[0] || Unstarred(ms[i].key) in lines[0])
    ensures lines == [] ==> r == Some(NoLines)
    ensures lines != [] && r.Some? ==> r.value == Missing(MissingColumns(lines[0], ms)) && r.value.columns != []
  {
    if lines == [] then Some(NoLines)
    else
      MissingColumnsSpec(lines[0], ms);
      var missing := MissingColumns(lines[0], ms);
      if missing != [] then
        assert missing[0] in missing;
        Some(Missing(missing))
      else
        assert forall i :: 0 <= i < |ms| && Starred(ms[i].key) ==> ms[i].key !in missing;
        None
  }

  /** The text thrown for missing required columns. */
  function MissingText(columns: seq<string>): string {
    "Required values are missing: " + Join(columns, ", ")
  }

  // ---------------------------------------------------------------------------
  // The entry points of 3.2, 2.2 and 2.1
  // ---------------------------------------------------------------------------

  /** The inputs of an import: the release, the file URL (`None` when missing) and the lines
      the file holds, the date library, the model, the deduplication settings, the format and
      default mappings, the batching settings, the required-column flag, the data source and
      the texts it throws. */
  datatype Request = Request(release: Release, url: Option<string>, lines: seq<Row>, lib: DateLib,
                             model: string, uniqueColumn: string, uniqueColumnType: string,
                             deduplicate: bool, formats: seq<FormatMapping>, defaults: seq<DefaultMapping>,
                             batched: bool, batchSize: int, validateRequiredColumns: bool, source: Source,
                             messages: Messages)

  /** 3.2 and 2.2 import in batches when asked to; 2.1 has no batching. */
  predicate Batched(q: Request) {
    q.batched && (q.release == R32 || q.release == R22)
  }

  /** The checks before the mappings are compiled: the URL, the 50000-line guard of an
      import without batches, and in 3.2 the required columns when asked for. */
  function Gate(q: Request, ms: seq<Mapping>): (r: Option<string>)
    ensures q.url.None? ==> r == Some(q.messages.noUrl)
    ensures r.None? ==> q.url.Some? && (Batched(q) || !TooManyLines(q.lines))
    ensures r.None? && q.release == R32 && q.validateRequiredColumns ==> RequiredColumns(q.lines, ms).None?
  {
    if q.url.None? then Some(q.messages.noUrl)
    else if !Batched(q) && TooManyLines(q.lines) then Some(q.messages.tooMany)
    else if q.release == R32 && q.validateRequiredColumns then
      match RequiredColumns(q.lines, ms)
      case None => None
      case Some(NoLines) => Some(q.messages.noLines)
      case Some(Missing(columns)) => Some(Raise(q.release, MissingText(columns)))
    else None
  }

  /** The mapping objects after the compile has rewritten them. */
  function RewrittenAll(ms: seq<Mapping>, formats: Option<seq<FormatMapping>>): (r: seq<Mapping>)
    ensures |r| == |ms| && forall i :: 0 <= i < |ms| ==> r[i] == Rewritten(ms[i], formats)
  {
    seq(|ms|, i requires 0 <= i < |ms| => Rewritten(ms[i], formats))
  }

  function SettingsOf(q: Request, ms: seq<Mapping>, main: seq<Option<Mapping>>, updates: seq<Option<Mapping>>): Settings
    requires q.release != R10
  {
    Settings(q.release, q.lib, q.model, RewrittenAll(ms, Some(q.formats)), main, updates, q.formats, q.defaults,
             q.deduplicate, q.uniqueColumn, q.uniqueColumnType, q.source, q.messages)
  }

  /** What an import comes to: its result, the bulk writes it submits and the checkpoint
      records it leaves. */
  datatype Effect = Effect(result: Result<string>, writes: seq<Write>, checkpoints: map<string, nat>)

  /** An import of 3.2, 2.2 or 2.1 with property mappings `ms`, update mappings `us` and the
      checkpoint records `cps` found in the store. */
  function ImportOutcome(q: Request, ms: seq<Mapping>, us: seq<Mapping>, cps: map<string, nat>): Effect
    requires q.release != R10
  {
    match Gate(q, ms)
    case Some(e) => Effect(Err(Catch(q.release, e)), [], cps)
    case None =>
      match Compile(ms, Some(q.formats))
      case Err(e) => Effect(Err(Catch(q.release, e)), [], cps)
      case Ok(main) =>
        match Compile(us, Some(q.formats))
        case Err(e) => Effect(Err(Catch(q.release, e)), [], cps)
        case Ok(updates) => Settled(q, SettingsOf(q, ms, main, updates), cps)
  }

  /** An import once both mapping lists are compiled into the settings `s`: the batches with
      their checkpoint, or the whole file as one batch. */
  function Settled(q: Request, s: Settings, cps: map<string, nat>): Effect
    requires q.release != R10 && q.url.Some?
  {
    if Batched(q) then
      var url := q.url.value;
      var run := RunFrom(StepOf(s), SplitArray(q.lines, q.batchSize), StartOf(cps, url));
      match run.error
      case Some(e) => Effect(Err(Catch(q.release, e)), run.writes, cps[url := run.stop])
      case None => Effect(Ok(FinishedText(q.release, |q.lines|, 0, 0)), run.writes, cps - {url})
    else
      match BatchOutcome(s, Lines(q.lines))
      case Err(e) => Effect(Err(Catch(q.release, e)), [], cps)
      case Ok(p) => Effect(Ok(FinishedText(q.release, |q.lines|, |p.creates|, |p.updates|)), BatchWrites(p), cps)
  }

  /** The name the batched branch of 3.2 and 2.2 assigns first without declaring it. */
  function UndeclaredBatches(release: Release): string {
    if release == R32 then "importLinesToCreateInBatches" else "recordsToCreateInBatches"
  }

  /** `Settled` as written: the action is an ES module, whose code is strict, so the first
      assignment to an undeclared name in the batched branch throws a ReferenceError before
      any checkpoint is read or written. The import without batches is unaffected. */
  function SettledAsWritten(q: Request, s: Settings, cps: map<string, nat>): (r: Effect)
    requires q.release != R10 && q.url.Some?
    ensures !Batched(q) ==> r == Settled(q, s, cps)
  {
    if Batched(q) then Effect(Err(Catch(q.release, UndeclaredBatches(q.release) + " is not defined")), [], cps)
    else Settled(q, s, cps)
  }

  /** As written, a batched import fails without a write and leaves the checkpoints alone;
      whenever the intended import succeeds, the two differ. */
  lemma BatchedFailsAsWritten(q: Request, s: Settings, cps: map<string, nat>)
    requires q.release != R10 && q.url.Some? && Batched(q)
    ensures var w := SettledAsWritten(q, s, cps);
            w.result.Err? && w.writes == [] && w.checkpoints == cps
    ensures Settled(q, s, cps).result.Ok? ==> SettledAsWritten(q, s, cps) != Settled(q, s, cps)
  {
  }

  /** An import never submits more records than the file has lines. */
  lemma ImportRecordCount(q: Request, ms: seq<Mapping>, us: seq<Mapping>, cps: map<string, nat>)
    requires q.release != R10
    ensures RecordCount(ImportOutcome(q, ms, us, cps).writes) <= |q.lines|
  {
    if Gate(q, ms).None? && Compile(ms, Some(q.formats)).Ok? && Compile(us, Some(q.formats)).Ok? {
      SettledRecordCount(q, SettingsOf(q, ms, Compile(ms, Some(q.formats)).value, Compile(us, Some(q.formats)).value), cps);
    }
  }

  lemma SettledRecordCount(q: Request, s: Settings, cps: map<string, nat>)
    requires q.release != R10 && q.url.Some?
    ensures RecordCount(Settled(q, s, cps).writes) <= |q.lines|
  {
    if Batched(q) {
      var bs := SplitArray(q.lines, q.batchSize);
      var start := StartOf(cps, q.url.value);
      if start <= |bs| {
        StepCount(s);
        RunRecordCount(StepOf(s), bs, start);
        SplitArrayFlattens(q.lines, q.batchSize);
        FlattenSuffix(bs, start);
      }
    } else if BatchOutcome(s, Lines(q.lines)).Ok? {
      BuildCount(s, Formatted(s, q.lines));
      BatchWritesCount(BatchOutcome(s, Lines(q.lines)).value);
    }
  }

  /** The lines of the batches from `i` on are no more than those of all batches. */
  lemma {:induction false} FlattenSuffix(bs: seq<Batch>, i: nat)
    requires i <= |bs|
    ensures |Flatten(bs[i..])| <= |Flatten(bs)|
    decreases i
  {
    if i > 0 {
      FlattenSuffix(bs[1..], i - 1);
      assert bs[1..][i - 1..] == bs[i..];
    }
  }

  /** `importFile` of 3.2 and `importCsv` of 2.2 and 2.1 on the lines of the file: the checks,
      the compile of both mapping lists in place, then the batches with their checkpoint or
      the whole file as one batch; every failure goes through the `catch`. */
  method Import(store: Store, q: Request, mappings: array<Mapping>, updateMappings: array<Mapping>)
    returns (r: Result<string>)
    requires q.release != R10
    requires mappings != updateMappings
    modifies store, mappings, updateMappings
    ensures var e := ImportOutcome(q, old(mappings[..]), old(updateMappings[..]), old(store.checkpoints));
            r == e.result && store.writes == old(store.writes) + e.writes && store.checkpoints == e.checkpoints
    ensures Gate(q, old(mappings[..])).None? ==>
              mappings[..] == RewrittenAll(old(mappings[..]), Some(q.formats)) &&
              updateMappings[..] == RewrittenAll(old(updateMappings[..]), Some(q.formats))
    ensures Gate(q, old(mappings[..])).Some? ==> unchanged(mappings) && unchanged(updateMappings)
  {
    var release := q.release;
    var gate := Gate(q, mappings[..]);
    if gate.Some? {
      return Err(Catch(release, gate.value));
    }
    ghost var ms := mappings[..];
    ghost var us := updateMappings[..];
    CompileWithFormats(ms, q.formats);
    CompileWithFormats(us, q.formats);
    var main := PrepareRelationMappings(mappings, Some(q.formats));
    var updates := PrepareRelationMappings(updateMappings, Some(q.formats));
    assert mappings[..] == RewrittenAll(ms, Some(q.formats));
    assert updateMappings[..] == RewrittenAll(us, Some(q.formats));
    var s := Settings(release, q.lib, q.model, mappings[..], main.value, updates.value, q.formats, q.defaults,
                      q.deduplicate, q.uniqueColumn, q.uniqueColumnType, q.source, q.messages);
    assert s == SettingsOf(q, ms, main.value, updates.value);
    r := ImportSettled(store, q, s);
  }

  /** The import once the settings are known: the batches with their checkpoint, or the whole
      file as one batch. */
  method ImportSettled(store: Store, q: Request, s: Settings) returns (r: Result<string>)
    requires q.release != R10 && q.url.Some? && s.release == q.release
    modifies store
    ensures var e := Settled(q, s, old(store.checkpoints));
            r == e.result && store.writes == old(store.writes) + e.writes && store.checkpoints == e.checkpoints
  {
    if Batched(q) {
      var batches := ImportBatch.Split(q.lines, q.batchSize);
      var error := RunBatches(store, s, q.url.value, batches);
      if error.Some? {
        return Err(Catch(q.release, error.value));
      }
      r := Ok(FinishedText(q.release, |q.lines|, 0, 0));
    } else {
      var p := ProcessBatch(store, s, Lines(q.lines));
      if p.Err? {
        return Err(Catch(q.release, p.message));
      }
      r := Ok(FinishedText(q.release, |q.lines|, |p.value.creates|, |p.value.updates|));
    }
  }

  // ---------------------------------------------------------------------------
  // The entry point of 1.0
  // ---------------------------------------------------------------------------

  /** The mappings with their property names camel-cased. */
  function CamelCasedAll(ms: seq<Mapping>): (r: seq<Mapping>)
    ensures |r| == |ms| && forall i :: 0 <= i < |ms| ==> r[i] == CamelCased(ms[i])
  {
    seq(|ms|, i requires 0 <= i < |ms| => CamelCased(ms[i]))
  }

  /** The property names of the mappings, in order. */
  function Values(ms: seq<Mapping>): (r: seq<string>)
    ensures |r| == |ms| && forall i :: 0 <= i < |ms| ==> r[i] == ms[i].value
  {
    seq(|ms|, i requires 0 <= i < |ms| => ms[i].value)
  }

  /** The unique identifier of 1.0, looked up before the file is read. */
  function UniqueIdentifierV1(q: Request, ms: seq<Mapping>): (r: Result<Option<Mapping>>)
    ensures r.Err? <==> q.deduplicate && q.uniqueColumn != "" && FindUniqueIdentifier(ms, q.uniqueColumn).None?
    ensures r.Ok? && r.value.Some? ==> q.deduplicate && NamesColumn(r.value.value, q.uniqueColumn)
  {
    if q.deduplicate && q.uniqueColumn != "" then
      match FindUniqueIdentifier(ms, q.uniqueColumn)
      case None => Err(q.messages.noUid)
      case Some(m) => Ok(Some(m))
    else Ok(None)
  }

  /** The read of the stored records of 1.0: every line's unique cell in an `in` filter. */
  function ExistingV1(q: Request, uid: Option<Mapping>, ms: seq<Mapping>): (r: Result<seq<Value>>)
    ensures !q.deduplicate || q.lines == [] ==> r == Ok([])
    ensures q.deduplicate && |q.lines| > 0 && uid.None? ==> r == Err(ReadError(Undef, "value"))
  {
    if q.deduplicate && |q.lines| > 0 then
      if uid.None? then Err(ReadError(Undef, "value"))
      else
        Paginated(q.source, q.messages.tooLarge)(Query(q.model, Filter(uid.value.value, false, Cells(q.lines, q.uniqueColumn)),
                                              ["id"] + Values(ms)))
    else Ok([])
  }

  /** An import of 1.0 with property mappings `ms` and update mappings `us`. */
  function ImportOutcomeV1(q: Request, ms: seq<Mapping>, us: seq<Mapping>, cps: map<string, nat>): Effect {
    CamelCasedOutcome(q, CamelCasedAll(ms), CamelCasedAll(us), cps)
  }

  /** An import of 1.0 once its mappings are camel-cased into `main` and `updates`. */
  function CamelCasedOutcome(q: Request, main: seq<Mapping>, updates: seq<Mapping>, cps: map<string, nat>): Effect {
    match UniqueIdentifierV1(q, main)
    case Err(e) => Effect(Err(Catch(R10, e)), [], cps)
    case Ok(uid) =>
      if TooManyLines(q.lines) then Effect(Err(Catch(R10, q.messages.tooMany)), [], cps)
      else
        match ExistingV1(q, uid, main)
        case Err(e) => Effect(Err(Catch(R10, e)), [], cps)
        case Ok(existing) =>
          var plan := Plan(V1, main, updates, [], [], q.deduplicate, q.uniqueColumn, uid, existing);
          var lines := FormatLinesV1(q.lib, q.lines, Keys(main), q.formats);
          match Prepare(plan, lines)
          case Err(e) => Effect(Err(Catch(R10, e)), [], cps)
          case Ok(p) => Effect(Ok(FinishedText(R10, |q.lines|, |p.creates|, |p.updates|)), BatchWrites(p), cps)
  }

  /** A 1.0 import never submits more records than the file has lines, and it has no
      checkpoints to move. */
  lemma ImportRecordCountV1(q: Request, ms: seq<Mapping>, us: seq<Mapping>, cps: map<string, nat>)
    ensures RecordCount(ImportOutcomeV1(q, ms, us, cps).writes) <= |q.lines|
    ensures ImportOutcomeV1(q, ms, us, cps).checkpoints == cps
  {
    var main := CamelCasedAll(ms);
    var uid := UniqueIdentifierV1(q, main);
    if uid.Ok? && !TooManyLines(q.lines) && ExistingV1(q, uid.value, main).Ok? {
      var plan := Plan(V1, main, CamelCasedAll(us), [], [], q.deduplicate, q.uniqueColumn, uid.value,
                       ExistingV1(q, uid.value, main).value);
      var lines := FormatLinesV1(q.lib, q.lines, Keys(main), q.formats);
      if Prepare(plan, lines).Ok? {
        OutcomesCount(plan, lines);
        BatchWritesCount(Prepare(plan, lines).value);
      }
    }
  }

  /** `importCsv` of 1.0: the mappings camel-cased in place, the unique identifier, the
      50000-line guard, the stored records, `processRecords` (which formats each line in
      place) and the bulk writes. */
  method ImportV1(store: Store, q: Request, mappings: array<Mapping>, updateMappings: array<Mapping>)
    returns (r: Result<string>)
    requires q.release == R10
    requires mappings != updateMappings
    modifies store, mappings, updateMappings
    ensures var e := ImportOutcomeV1(q, old(mappings[..]), old(updateMappings[..]), old(store.checkpoints));
            r == e.result && store.writes == old(store.writes) + e.writes && store.checkpoints == e.checkpoints
    ensures forall i :: 0 <= i < mappings.Length ==> mappings[i] == CamelCased(old(mappings[i]))
    ensures forall i :: 0 <= i < updateMappings.Length ==> updateMappings[i] == CamelCased(old(updateMappings[i]))
  {
    ghost var ms := mappings[..];
    ghost var us := updateMappings[..];
    CamelCaseValues(mappings);
    CamelCaseValues(updateMappings);
    var main := mappings[..];
    var updates := updateMappings[..];
    assert main == CamelCasedAll(ms);
    assert updates == CamelCasedAll(us);
    r := ImportCamelCased(store, q, main, updates);
  }

  /** The import of 1.0 once its mappings are camel-cased: the unique identifier, the
      50000-line guard, the stored records, `processRecords` and the bulk writes. */
  method ImportCamelCased(store: Store, q: Request, main: seq<Mapping>, updates: seq<Mapping>) returns (r: Result<string>)
    modifies store
    ensures var e := CamelCasedOutcome(q, main, updates, old(store.checkpoints));
            r == e.result && store.writes == old(store.writes) + e.writes && store.checkpoints == e.checkpoints
  {
    var uid := UniqueIdentifierV1(q, main);
    if uid.Err? {
      return Err(Catch(R10, uid.message));
    }
    if TooManyLines(q.lines) {
      return Err(Catch(R10, q.messages.tooMany));
    }
    var existing := ExistingV1(q, uid.value, main);
    if existing.Err? {
      return Err(Catch(R10, existing.message));
    }
    var plan := Plan(V1, main, updates, [], [], q.deduplicate, q.uniqueColumn, uid.value, existing.value);
    var records := new Row[|q.lines|](i requires 0 <= i < |q.lines| => q.lines[i]);
    assert records[..] == q.lines;
    var p := ProcessRecords(q.lib, plan, records, Keys(main), q.formats);
    if p.Err? {
      return Err(Catch(R10, p.message));
    }
    store.Submit(BatchWrites(p.value));
    r := Ok(FinishedText(R10, |q.lines|, |p.value.creates|, |p.value.updates|));
  }
}
