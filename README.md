# my-lth-actions: a Dafny model of the array actions and the CSV import

This project models, in Dafny, the core of the custom actions of the my-lth-actions
repository (JavaScript functions run by the Betty Blocks action runtime):

- the array actions `array-count`, `array-filter`, `array-find`, `array-join`,
  `array-map`, `array-push`, `array-reduce` and `array-split`, with the path walk
  (`travelPath`) and the operator table they share;
- the shared helpers of `utils/helpers.js` (`snakeToCamel`, `convertToDBDateFormat`,
  `convertToBoolean`, `throwError`) and the paginated read `getAll` of `utils/queries.js`;
- the `importCSV` action in its releases 3.2, 2.2, 2.1 and 1.0: the guards before an import,
  the compile of the property mappings into plain and relation mappings, the relation lookup
  lists, the formatting of the cells, the deduplication against the records already stored,
  the split into batches with a checkpoint per file, and the bulk `createMany` and
  `upsertMany` writes.

JavaScript values are a datatype (`Js.Value`: `undefined`, `null`, booleans, numbers with
`NaN` and the infinities, strings, dates, objects and arrays), with the operators the
actions use (loose and strict equality, `SameValueZero`, relational comparison, truthiness,
`toString`, `parseFloat`, `Number`, `toFixed`). Pure code is modelled by functions. Code that
changes things step by step is modelled by methods with loops, proved against those
functions. This covers the in-place rewrite of the mapping objects, the in-place
formatting of the lines, `push` on the caller's array, and the checkpoint store. The GraphQL
reads are an oracle parameter (`ImportLookup.Source`). The date library `date-fns` is an
oracle parameter (`Helpers.DateLib`). The data store of the runtime is a class
(`ImportBatch.Store`) holding the checkpoint records and the log of the bulk writes.

Release 2.2 and release 2.1 share their formatting and record preparation code, which is
modelled once (`V2` of `ImportReconcile.Version`); 3.2 is `V3` and 1.0 is `V1`. Where the code does something
other than what its documentation or evident intent says, the model follows the code, states
the behaviour as written in a member suffixed `AsWritten` or in a lemma, and lets the rest of
the model use the corrected behaviour (see "## Findings"). One such case needs no finding:
`splitArray` with a size that is not positive returns the lines themselves rather than one
batch, and the model does the same (`ImportBatch.SplitArray`, `ImportRun.RunOfNonPositiveSize`).

## Model

| member | source | states |
|---|---|---|
| ArrayCount.Count | functions/array-count/1.0/index.js:1-11 | Succeeds exactly on an array, with its length; anything else fails with "Unable to count array: Provided array is not valid". |
| Path.TravelPathLoop | functions/array-filter/1.0/index.js:1-8 | The key loop of `travelPath` returns the value reached by reading every dot-separated key in turn, or the TypeError of the first read of `undefined`/`null`. |
| Path.TravelAppend | functions/array-filter/1.0/index.js:1-8 | Travelling keys `a + b` is travelling `a` and then `b` from where `a` ended; an error in `a` is the result. |
| Path.TravelPathSingle | functions/array-filter/1.0/index.js:1-8 | A path without a dot is a single property read. |
| Path.TravelPathDot | functions/array-filter/1.0/index.js:1-8 | `first.rest` reads `first` and travels `rest` from there. |
| Path.TravelNested | functions/array-filter/1.0/index.js:1-8 | On nested objects the walk descends one own property per key. |
| Path.ProjectOne | functions/array-join/1.0/index.js:14-21 | Items whose `typeof` is not "object" are refused with "Array item is not an object. Cannot travel path"; others are travelled. |
| Path.ProjectPaths | functions/array-map/1.0/index.js:12-19 | On success, one value per item, each the item's value at the path; on failure, the error of the first item that fails, all earlier ones succeeding. |
| Path.ProjectPathsOk | functions/array-map/1.0/index.js:12-19 | The projection succeeds exactly when every item can be travelled. |
| Operators.ParseOp | functions/array-filter/1.0/index.js:17-30 | A name selects an operator exactly when it is one of the eight keys of the table. |
| Operators.Includes | functions/array-filter/1.0/index.js:24-25 | `includes` succeeds only on a string item, and then is substring search for the text of the value. |
| Operators.ApplyComplements | functions/array-filter/1.0/index.js:18-25 | `ne` is the negation of `eq`; `ncont` fails exactly when `cont` does and otherwise negates it. |
| Operators.ApplyOnNumbers | functions/array-filter/1.0/index.js:18-23 | On numbers other than `NaN`, `eq`, `gt`, `lt`, `gte` and `lte` are the order of the numbers. |
| Operators.TestThroughPath | functions/array-filter/1.0/index.js:46-62 | An item that is neither a string nor a number is tested through its value at the path; a failed walk is the error, and a value that is neither a string nor a number is "Invalid value type". |
| Operators.TestPrimitives | functions/array-filter/1.0/index.js:31-45 | A string item (dates off) is compared with the value as given, a number item with `Number(value)`; `eq` and `ne` accept the same items and disagree on each. |
| ArrayFilter.Keep | functions/array-filter/1.0/index.js:31-63 | Succeeds exactly when the test succeeds on every item; the result holds exactly the items that pass, and no more items than the input. |
| ArrayFilter.KeepAppend | functions/array-filter/1.0/index.js:31-63 | Filtering keeps input order: the result for `a + b` is the result for `a` followed by that for `b`. |
| ArrayFilter.KeepPartition | functions/array-filter/1.0/index.js:31-63 | Two tests that disagree on every item split the items between their results. |
| ArrayFilter.Filter | functions/array-filter/1.0/index.js:9-67 | A falsy parameter gives the missing-parameters error, an unknown operator "Invalid operator"; a success is a sub-list of an array. |
| ArrayFilter.FilterEqNe | functions/array-filter/1.0/index.js:17-63 | The `eq` and `ne` filters of the same array, path and value together hold every item once. |
| ArrayFind.FirstFindsEarliest | functions/array-find/1.0/index.js:28-43 | The result is the item at `k` when it passes and every earlier item fails. |
| ArrayFind.FirstIsHeadOfKeep | functions/array-find/1.0/index.js:28-43 | When no test throws, the search returns the first item the filter would keep, or `undefined`. |
| ArrayFind.FirstIgnoresRest | functions/array-find/1.0/index.js:28-43 | Items after the first hit are never tested: appending anything, even an item that throws, leaves the result unchanged. |
| ArrayFind.Find | functions/array-find/1.0/index.js:9-47 | A falsy parameter gives the find-specific missing-parameters error; an unknown operator gives "Invalid operator". |
| ArrayFind.FindIsFirstOfFilter | functions/array-find/1.0/index.js:28-43 | Whenever the filter (dates off) succeeds, find returns the first item it keeps, or `undefined` when it keeps none. |
| ArrayJoin.JoinArray | functions/array-join/1.0/index.js:9-30 | The loop computes the specification: a non-array is "Missing array input"; with a path the projections, else the items, joined with the separator (a comma when absent). |
| ArrayJoin.Project | functions/array-join/1.0/index.js:13-21 | The loop over the items yields the specification of a projection: every item's value at the path in order, or the error of the first item that is not an object or cannot be travelled. |
| ArrayJoin.JoinValuesOfStrings | functions/array-join/1.0/index.js:26 | Joining strings writes them in order with the separator between neighbours only. |
| ArrayJoin.JoinArraySplitsBack | functions/array-join/1.0/index.js:26 | Strings free of a one-character separator, joined and then split on it, come back unchanged. |
| ArrayMap.ReadAll | functions/array-map/1.0/index.js:22 | Reading one key of every item fails exactly when some item is `undefined` or `null`; otherwise one value per item, each that item's property. |
| ArrayMap.MapArray | functions/array-map/1.0/index.js:9-27 | `undefined` or `null` fails with the TypeError of reading `map`; any other non-array fails with "result.map is not a function" (dotted path) or "array.map is not a function"; a success comes only from an array and holds one value per item. |
| ArrayMap.MapArrayPointwise | functions/array-map/1.0/index.js:9-27 | Each result element is the value at the path of the item in the same position. |
| ArrayMap.MapArrayOfObjects | functions/array-map/1.0/index.js:11-23 | On an array of objects the dotted and undotted branches are the same walk; the dot test only decides whether non-objects are refused. |
| ArrayPush.Push | functions/array-push/1.0/index.js:9-45 | On an array object: result and error are those of the specification; without a path the caller's array is the result and is extended in place; with a path the result is a fresh array and the caller's is unchanged, as it is on every error. Any other value is left as it is and gives `PushValue`'s outcome. |
| ArrayPush.PushArray | functions/array-push/1.0/index.js:9-45 | The same for an array object alone. |
| ArrayPush.PushValue | functions/array-push/1.0/index.js:9-45 | An array value behaves as its elements do. Any other value with a path fails with the TypeError of reading or calling `result.map`. Without a path, a non-array succeeds only with `filter` on a string that contains the number's text, and then comes back unchanged; otherwise the number check, `result.includes` or `result.push` throws. |
| ArrayPush.PushAppends | functions/array-push/1.0/index.js:29-41 | A push that adds the number keeps every earlier element, puts the number last and raises the count by one. |
| ArrayPush.PushFilterIdempotent | functions/array-push/1.0/index.js:29-37 | With `filter`, a second push of the same number changes nothing. |
| ArrayPush.PushProjectsFirst | functions/array-push/1.0/index.js:12-28 | A path that cannot be travelled is reported even when the number is `NaN`. |
| ArrayReduce.ReducerAsWritten | functions/array-reduce/1.0/index.js:22-27 | The table as written selects exactly `sum`, `min`, `max` and `concat`, never `count`. |
| ArrayReduce.ReducerOf | functions/array-reduce/1.0/index.js:22-40 | The corrected table adds `count` and agrees with the written one elsewhere. |
| ArrayReduce.ConcatStep | functions/array-reduce/1.0/index.js:26 | `concat` succeeds exactly on an array or string accumulator. |
| ArrayReduce.Start | functions/array-reduce/1.0/index.js:42-43 | The start is the initial value unless it is `undefined`, then the reducer's default. |
| ArrayReduce.ReduceAsWritten | functions/array-reduce/1.0/index.js:10-53 | A non-array or falsy reducer gives the missing-parameters error; an unknown reducer name gives the invalid-reducer error naming it. |
| ArrayReduce.Reduce | functions/array-reduce/1.0/index.js:10-53 | The same error cases against the corrected table. |
| ArrayReduce.ReduceAgrees | functions/array-reduce/1.0/index.js:37-40 | The corrected action agrees with the written one on every name but `count`. |
| ArrayReduce.CountRejectedAsWritten | functions/array-reduce/1.0/index.js:29-40 | As written, `count` has a default start of 0 but is refused as an invalid reducer. |
| ArrayReduce.FoldAppend | functions/array-reduce/1.0/index.js:45-50 | Folding over `a + b` folds over `a`, then over `b` from where `a` stopped; an error in `a` ends the fold. |
| ArrayReduce.FoldThroughPath | functions/array-reduce/1.0/index.js:45-50 | With a path, the fold sees each item's value at the path in place of the item. |
| ArrayReduce.ReduceCount | functions/array-reduce/1.0/index.js:29-50 | With the `count` entry and its default start, the result is the number of items. |
| ArrayReduce.ReduceEmpty | functions/array-reduce/1.0/index.js:42-50 | An empty array reduces to the start. |
| ArrayReduce.ReduceSum | functions/array-reduce/1.0/index.js:23-50 | `sum` from its default start adds the numbers up. |
| ArrayReduce.ReduceMin | functions/array-reduce/1.0/index.js:24-50 | `min` from `Infinity` gives a number of a non-empty list that is no larger than any of them. |
| ArrayReduce.ReduceMax | functions/array-reduce/1.0/index.js:25-50 | `max` from `-Infinity` gives a number of a non-empty list that is no smaller than any of them. |
| ArrayReduce.ReduceConcat | functions/array-reduce/1.0/index.js:26-50 | `concat` from `[]` collects the items of an array without nested arrays. |
| ArraySplit.KeepPieces | functions/array-split/1.0/index.js:13-26 | No more pieces are kept than were split off. |
| ArraySplit.SplitResult | functions/array-split/1.0/index.js:1-32 | Fails ("Value is not a string") exactly when the value is not a string. |
| ArraySplit.SplitValue | functions/array-split/1.0/index.js:1-32 | The `forEach` loop computes the specification. |
| ArraySplit.KeepPiecesNonEmpty | functions/array-split/1.0/index.js:14-24 | Every kept piece is non-empty unless `trim` is on and `removeEmpty` off. |
| ArraySplit.KeepPiecesTrimmed | functions/array-split/1.0/index.js:15-17 | With `trim`, every kept piece is its own trim. |
| ArraySplit.WhiteSpacePieceKept | functions/array-split/1.0/index.js:14-24 | A piece of white space is kept as "" with `trim` alone, dropped with `trim` and `removeEmpty`, and kept as it is with `removeEmpty` alone. |
| ArraySplit.KeepNonEmpty | functions/array-split/1.0/index.js:14-24 | Without `trim`, non-empty pieces are all kept as they are. |
| ArraySplit.SplitThenJoin | functions/array-split/1.0/index.js:10-26 | A text whose pieces are all non-empty, split and joined with the same delimiter, comes back. |
| ArraySplit.SplitUndoesJoin | functions/array-split/1.0/index.js:10-26 | Split undoes the join action on non-empty strings free of a one-character separator. |
| ImportRecords.Unstarred | functions/importCSV/3.2/index.js:53 | Dropping the star of a required key gives the column name that, with the star appended, is the key. |
| ImportRecords.FalsyCellFallsBack | functions/importCSV/3.2/index.js:129-131 | As written, a falsy value stored under a starred key is not read back: the read goes to the column without the star. |
| ImportRecords.ReadCellReadsBack | functions/importCSV/3.2/index.js:129-131 | The corrected read returns a truthy value or a boolean stored under a key; on truthy cells the `\|\|` read agrees. |
| ImportRecords.ReadCellAsWrittenElsewhere | functions/importCSV/3.2/index.js:129-131 | The corrected read differs from the `\|\|` read only on a stored `false`; a blank starred cell falls back to the unstarred column in both. |
| ImportRecords.ReadCellOfUnstarredColumn | functions/importCSV/3.2/index.js:52-54 | When the starred column is absent, both reads take the unstarred column. |
| ImportRecords.FindUniqueFrom | functions/importCSV/3.2/index.js:331-335 | The position found is the first from `i` on whose key equals the unique column after lower-casing and trimming; none is found only when no such key exists. |
| ImportRecords.FindUniqueIdentifier | functions/importCSV/3.2/index.js:331-335 | The identifier is the first mapping naming the unique column; none exactly when no mapping names it. |
| ImportRecords.FindExisting | functions/importCSV/3.2/index.js:162-166 | A found record is the first stored record whose unique property has the same text as the line's unique cell; nothing is found only if no record matches; no stored records find nothing. |
| ImportRecords.Classify | functions/importCSV/3.2/index.js:160-181 | Without deduplication the line is created; with it, a `''` unique cell is skipped, an update carries the matching record's id on the update object (or the create object without update mappings), and a create happens only when no stored record matches. |
| ImportRecords.Creates | functions/importCSV/3.2/index.js:115-183 | No more records to create than lines. |
| ImportRecords.Updates | functions/importCSV/3.2/index.js:115-183 | No more records to update than lines. |
| ImportRecords.OutcomesPartition | functions/importCSV/3.2/index.js:160-181 | Every line is created, updated or skipped, exactly once. |
| ImportRecords.CreatesAppend | functions/importCSV/3.2/index.js:118-182 | The creates of consecutive lines follow each other in line order. |
| ImportRecords.UpdatesAppend | functions/importCSV/3.2/index.js:118-182 | The updates of consecutive lines follow each other in line order. |
| ImportRecords.StripId | functions/importCSV/3.2/index.js:396-400 | The createMany payload has no `id` and every other property of the record, unchanged. |
| ImportRecords.StripIds | functions/importCSV/3.2/index.js:397-400 | Every record to create is stripped of its `id`, in order. |
| ImportRecords.LineGuardIsDead | functions/importCSV/3.2/index.js:498-501 | The 50000-line guard as written never fires, while a file of 50001 lines is refused by the intended guard. |
| ImportMappings.FormatOf | functions/importCSV/3.2/index.js:200-202 | The first format mapping whose key is the column, or none when no format mapping has that key. |
| ImportMappings.Rewritten | functions/importCSV/3.2/index.js:187-213 | The rewritten mapping keeps its key, and a relation remembers that key as its import column. |
| ImportMappings.Entry | functions/importCSV/3.2/index.js:187-214 | The callback's result is the rewritten mapping when it returns one; its only failure is the TypeError of calling `find`. |
| ImportMappings.Compile | functions/importCSV/3.2/index.js:186-216 | Succeeds exactly when every mapping's callback does, with one entry per mapping in order; the failure is the `find` TypeError. |
| ImportMappings.PrepareRelationMappings | functions/importCSV/3.2/index.js:186-216 | The loop returns the compile's result; on success every mapping object is rewritten; on failure those up to and including the failing one are rewritten and the rest untouched. |
| ImportMappings.CompileFails | functions/importCSV/3.2/index.js:200-202 | One mapping whose callback fails makes the whole compile fail. |
| ImportMappings.EntryOfSegments | functions/importCSV/3.2/index.js:189-213 | One segment is a plain property, camel-cased; two are a relation to the first segment's model searching the second segment's property, failing without format mappings; three or more give `undefined`. |
| ImportMappings.RelationNames | functions/importCSV/3.2/index.js:192-207 | A `model_words.property_words` mapping relates to the camel-cased model (capitalised for the model name), searches the camel-cased property, and takes the column's format as the property type. |
| ImportMappings.CompileWithoutFormatsFails | functions/importCSV/3.2/index.js:545-547 | As written, compiling the update mappings without format mappings fails as soon as one of them is a relation. |
| ImportMappings.CompileWithFormats | functions/importCSV/3.2/index.js:533-536 | With format mappings the compile never fails, and it drops exactly the mappings of three or more segments. |
| ImportMappings.CamelCased | functions/importCSV/1.0/index.js:193 | Camel-casing changes only the property name. |
| ImportMappings.CamelCaseValues | functions/importCSV/1.0/index.js:192-197 | Every mapping object has its property name camel-cased in place. |
| ImportMappings.PlainMappingAgrees | functions/importCSV/1.0/index.js:192-194 | On a dotless snake-case property name, 1.0 and the later compile agree, dropping underscores and capitalising each later word. |
| ImportLookup.UniqueValues | functions/importCSV/3.2/index.js:219-226 | No more distinct values than lines. |
| ImportLookup.UniqueValuesSpec | functions/importCSV/3.2/index.js:219-226 | The distinct values are truthy cells of the column, every truthy cell is among them, and no two are equal in the sense of `includes`. |
| ImportLookup.UniqueValuesOfDistinct | functions/importCSV/3.2/index.js:219-226 | When all cells are truthy and pairwise different, the distinct values are the cells in line order. |
| ImportLookup.GetWhere | functions/importCSV/3.2/index.js:218-238 | The loops build the filter text of the distinct truthy cells: an `_or` of `eq` clauses for a decimal property, otherwise an `in` list. |
| ImportLookup.WhereHoldsItem | functions/importCSV/3.2/index.js:227-237 | The filter holds the clause of each of its values. |
| ImportLookup.WhereListsEveryValue | functions/importCSV/3.2/index.js:218-238 | Every truthy cell of the column is searched for by the filter. |
| ImportLookup.WhereOfAllLinesLoop | functions/importCSV/1.0/index.js:234-238 | The 1.0 loop builds the `in` filter of every line's cell, duplicates and blanks included. |
| ImportLookup.WhereOfAllLinesListsEveryLine | functions/importCSV/1.0/index.js:235-238 | Every line's cell, whatever its value, is listed by the 1.0 filter. |
| ImportLookup.WhereOfAllLinesAgrees | functions/importCSV/1.0/index.js:234-238 | On truthy pairwise-different cells the 1.0 filter is the later releases' `in` filter (with their spacing of 2.x). |
| ImportLookup.PaginatedReadsAll | functions/importCSV/3.2/index.js:269 | A paginated read of a source holding at most 20000 records for the query returns all of them. |
| ImportLookup.Relations | functions/importCSV/3.2/index.js:248-250 | The relation mappings among the compiled ones, in order, each a relation. |
| ImportLookup.Lookup | functions/importCSV/3.2/index.js:250-274 | A lookup list succeeds exactly when its read does, holding the mapping's column, the relation's import column and the records read. |
| ImportLookup.LookupDataSpec | functions/importCSV/3.2/index.js:240-278 | The lookup lists follow the relation mappings one to one and in order, each holding what its query reads. |
| ImportLookup.LookupDataOfDropped | functions/importCSV/3.2/index.js:245-250 | A mapping the compile dropped fails the lookup with the TypeError of reading `isRelation`, unless an earlier read failed first. |
| ImportLookup.GetRelationLookupData | functions/importCSV/3.2/index.js:240-278 | The loop, one read per relation mapping, computes the lookup lists or the first failure. |
| ImportFormat.DecimalOfDigits | functions/importCSV/3.2/index.js:62-79 | A run of digits gets ".00" appended in 3.2 and in 2.x. |
| ImportFormat.DecimalUnparsable | functions/importCSV/3.2/index.js:68-78 | A text with no number at its front becomes "" in 3.2, while 2.x appends ".00" to it all the same. |
| ImportFormat.DecimalComma | functions/importCSV/3.2/index.js:65-67 | A decimal comma is read as a point. |
| ImportFormat.DecimalReadsBack | functions/importCSV/3.2/index.js:71-75 | With a point, both releases write the number rounded to two decimals, a text that reads back as that rounded number. |
| ImportFormat.FormatPieces | functions/importCSV/3.2/index.js:57 | Splitting the trimmed format value gives at least one piece. |
| ImportFormat.FormattedV3 | functions/importCSV/3.2/index.js:56-96 | On a truthy cell: text gives its text; decimal/price the decimal text; number keeps a parsable cell and blanks the rest; only checkbox gives a boolean, the intended conversion; a date kind gives a date text or `null`. |
| ImportFormat.DateFormatPieces | functions/importCSV/3.2/index.js:88-94 | A format `type,format` converts the cell with that date format and date type. |
| ImportFormat.DateTypeAlone | functions/importCSV/3.2/index.js:88-94 | A format without a comma is a date type with the default format `dd-MM-yyyy`. |
| ImportFormat.FormatImportLineValues | functions/importCSV/3.2/index.js:44-102 | Every line of the array is replaced in place by its formatting: the mapped keys in order, each cell read with the `\|\|` of line 53 (a falsy starred cell falls back to the column without the star), every format mapping of the key applied to a truthy cell. |
| ImportFormat.ApplyFormatsV3Frame | functions/importCSV/3.2/index.js:55-98 | The formats of one key write that key and no other cell. |
| ImportFormat.ApplyFormatsV3Falsy | functions/importCSV/3.2/index.js:56 | A falsy cell is left as it is. |
| ImportFormat.ApplyFormatsV3Last | functions/importCSV/3.2/index.js:55-98 | Of several format mappings of a key, the last one that writes decides the cell. |
| ImportFormat.FormatLineV3Frame | functions/importCSV/3.2/index.js:49-101 | A column that no mapping names, or that no format mapping has as its key, keeps its cell. |
| ImportFormat.FormatLineV3Formats | functions/importCSV/3.2/index.js:49-101 | A truthy unstarred cell named once takes the value of the last format mapping of its column that writes. |
| ImportFormat.StarredCheckboxLost | functions/importCSV/3.2/index.js:52-54 | With the starred column absent and a truthy "false"-like checkbox text unstarred, formatting writes `false` under the starred key, yet the `\|\|` read returns the raw text; the corrected read returns `false`. |
| ImportFormat.FormattedV2 | functions/importCSV/2.2/index.js:194-217 | Decimal gives a text; only checkbox gives a boolean, the intended conversion; anything else is `null` or a date text no longer than the format. |
| ImportFormat.FormattedV1 | functions/importCSV/1.0/index.js:119-131 | Only checkbox gives a boolean, the intended conversion; anything else is `null` or a date text no longer than the format. |
| ImportFormat.FormatRecordAt | functions/importCSV/2.2/index.js:188-223 | The nested loops format the record at `i` in place and leave every other record unchanged. |
| ImportFormat.FormatCSVRecordValues | functions/importCSV/2.2/index.js:183-224 | Every record of the array is formatted in place as specified. |
| ImportFormat.ApplyFormatsFrame | functions/importCSV/2.2/index.js:191-220 | The formats of one key write that key and no other cell. |
| ImportFormat.FormatLineFrame | functions/importCSV/2.2/index.js:188-223 | A column that no mapping names, or that no format mapping has as its key, keeps its cell. |
| ImportFormat.ApplyFormatsFalsy | functions/importCSV/2.2/index.js:193 | With the truthiness guard, a falsy cell is left as it is. |
| ImportFormat.ApplyFormatsOnce | functions/importCSV/2.2/index.js:192-219 | A key with exactly one format mapping is converted once, from the cell as it was. |
| ImportFormat.ApplyFormatsNone | functions/importCSV/2.2/index.js:193 | Format mappings of other keys change nothing. |
| ImportFormat.FormatLineOnce | functions/importCSV/2.2/index.js:188-223 | A column named by exactly one mapping and one format mapping is converted once from its original cell. |
| ImportFormat.AbsentColumnV2 | functions/importCSV/2.2/index.js:193 | 2.x leaves an absent column absent. |
| ImportFormat.AbsentColumnV1 | functions/importCSV/1.0/index.js:115-135 | 1.0 formats an absent column, whose cell reads as `undefined`: as written the checkbox conversion of that cell throws; with the intended conversion a checkbox column becomes `false`. |
| ImportFormat.CheckboxTwice | functions/importCSV/2.2/index.js:192-210 | 2.x re-reads the cell for each format mapping: a second checkbox mapping leaves what the first wrote, so the cell is converted once. |
| ImportReconcile.Defaults | functions/importCSV/3.2/index.js:122-126 | Every default mapping's camel-cased key is a property of the defaults object. |
| ImportReconcile.DefaultsValue | functions/importCSV/3.2/index.js:122-126 | A default is written unless a later default has the same camel-cased name. |
| ImportReconcile.FindLookup | functions/importCSV/3.2/index.js:133-135 | The first lookup list whose import column is the key, or none when no list has it. |
| ImportReconcile.FindRelated | functions/importCSV/3.2/index.js:138-140 | The first related target (loose equality in 3.2, strict and truthy in 2.x); none only when no target is related; an error only when some target is `undefined`/`null`. |
| ImportReconcile.CellOf | functions/importCSV/3.2/index.js:149 | In 3.2 a plain mapping never writes `undefined`. |
| ImportReconcile.CellOfBlankStarred | functions/importCSV/3.2/index.js:128-149 | In 3.2 a blank starred cell whose column without the star is absent writes `null`. |
| ImportReconcile.Written | functions/importCSV/3.2/index.js:128-151 | A plain mapping writes its cell; a relation without a lookup list writes nothing; with one, the related target's id (an object holding it in 2.x) or `{}`. |
| ImportReconcile.ImportObjectLast | functions/importCSV/3.2/index.js:128-151 | The last main mapping writing a property decides its value. |
| ImportReconcile.ImportObjectFrame | functions/importCSV/3.2/index.js:119-151 | A property no main mapping writes keeps its value from the defaults. |
| ImportReconcile.ImportObjectFails | functions/importCSV/3.2/index.js:128-151 | The object fails exactly when one of its mappings fails to write. |
| ImportReconcile.UpdateObjectLast | functions/importCSV/3.2/index.js:153-158 | The last update mapping naming a property writes that line's cell to it. |
| ImportReconcile.UpdateObjectFrame | functions/importCSV/3.2/index.js:153-158 | A property no update mapping writes keeps its value from the defaults. |
| ImportReconcile.BuildImportObject | functions/importCSV/3.2/index.js:128-151 | The loop over the main mappings builds the object to create. |
| ImportReconcile.ImportObjectErrPrefix | functions/importCSV/3.2/index.js:128-151 | A failure among the first mappings is the failure of the whole object. |
| ImportReconcile.BuildUpdateObject | functions/importCSV/3.2/index.js:153-158 | The loop over the update mappings builds the object to update. |
| ImportReconcile.Outcomes | functions/importCSV/3.2/index.js:118-182 | One outcome per line. |
| ImportReconcile.OutcomesPointwise | functions/importCSV/3.2/index.js:118-182 | The outcomes are the lines' own outcomes; a failure is the failure of a line, all earlier lines succeeding. |
| ImportReconcile.OutcomesErrPrefix | functions/importCSV/3.2/index.js:118-182 | A failure among the first lines is the failure of the batch. |
| ImportReconcile.OutcomesCount | functions/importCSV/3.2/index.js:115-183 | A batch yields no more records than lines. |
| ImportReconcile.NoDedupCreatesAll | functions/importCSV/3.2/index.js:179-181 | Without deduplication every line gives its record to create, in order, and nothing is updated. |
| ImportReconcile.PrepareImportLines | functions/importCSV/3.2/index.js:104-184 | The loop over the lines computes the records to create and to update. |
| ImportReconcile.BuildLine | functions/importCSV/3.2/index.js:118-182 | The loop body builds both objects and classifies the line. |
| ImportReconcile.ProcessRecords | functions/importCSV/1.0/index.js:97-175 | Each record is formatted in place and then built; the result is that of the formatted lines; on success every record is formatted; on failure the records up to and including the failing one are formatted and the rest are as they were. |
| ImportRun.Raise | functions/importCSV/3.2/index.js:493 | A message the action raises itself is "Error: " and the JSON text of the explanation in 3.2 (the shared helper), the bare JSON text in the 2.x and 1.0 copies. |
| ImportRun.ThrownV21 | functions/importCSV/2.1/index.js:63-72 | The 2.1 helper throws the JSON text of a text, and "{}" for an Error object. |
| ImportRun.LoggedV21 | functions/importCSV/2.1/index.js:64-70 | A text is logged as it is; an object is logged as at most the first 2000 characters of its JSON text. |
| ImportRun.CatchV21LosesMessage | functions/importCSV/2.1/index.js:552-554 | As written, the outer catch of 2.1 turns every error into "{}", whatever its message. |
| ImportRun.Catch | functions/importCSV/3.2/index.js:660-662 | The outer catch keeps the inner message in 2.2 and puts "Error: " before a non-empty message elsewhere. |
| ImportRun.CatchKeepsMessage | functions/importCSV/3.2/index.js:660-662 | The caught message tells different inner messages apart. |
| ImportRun.Present | functions/importCSV/3.2/index.js:245-250 | No more mappings than compiled entries; when none was dropped, exactly the compiled mappings in order. |
| ImportRun.LookupDataNeedsAll | functions/importCSV/3.2/index.js:245-250 | The lookup data succeed only when the compile dropped no mapping. |
| ImportRun.PlainFieldsSpec | functions/importCSV/3.2/index.js:323-326 | The fields read for the stored records are exactly the property names of the main mappings that are not relations. |
| ImportRun.UniqueIdentifier | functions/importCSV/3.2/index.js:328-341 | With deduplication and a unique column, the identifier is a mapping naming that column; the no-identifier message is raised exactly when no mapping names it. |
| ImportRun.Existing | functions/importCSV/3.2/index.js:343-362 | Without deduplication or lines nothing is read; deduplicating a non-empty batch without an identifier fails reading `value` of `undefined`. |
| ImportRun.BuildCount | functions/importCSV/3.2/index.js:280-457 | A batch yields no more records than lines. |
| ImportRun.BuildNeedsAll | functions/importCSV/3.2/index.js:308-312 | A batch succeeds only when neither compile dropped a mapping. |
| ImportRun.StepCount | functions/importCSV/3.2/index.js:280-457 | A successful batch step is a chunk of lines yielding no more records than lines. |
| ImportRun.FormatBatch | functions/importCSV/3.2/index.js:302-306 | Formats the lines of a batch as specified. |
| ImportRun.BuildBatch | functions/importCSV/3.2/index.js:308-375 | Reads the lookup data and the stored records and prepares the records, as specified. |
| ImportRun.ProcessBatch | functions/importCSV/3.2/index.js:280-457 | The outcome is the batch's; on success exactly its bulk writes are submitted, and the checkpoints are unchanged. |
| ImportRun.RunStops | functions/importCSV/3.2/index.js:599-635 | The run completes exactly when every batch from the start succeeds; otherwise it stops at the first failing batch with that batch's error. |
| ImportRun.ResumeCompletes | functions/importCSV/3.2/index.js:599-635 | A run that stopped, resumed from its stop, writes what one run would have written. |
| ImportRun.BatchWritesCount | functions/importCSV/3.2/index.js:377-446 | The bulk writes of a batch carry exactly its records to create and to update. |
| ImportRun.RunRecordCount | functions/importCSV/3.2/index.js:599-635 | A run writes no more records than the lines of the batches it covers. |
| ImportRun.RunOfNonPositiveSize | functions/importCSV/3.2/index.js:12-15 | With a batch size that is not positive the first batch is a line rather than a list, so the run writes nothing and stops at once with the not-a-list error. |
| ImportRun.RunBatches | functions/importCSV/3.2/index.js:558-637 | Starts at the file's checkpoint or at 0; the writes are those of the run; the checkpoint is deleted when the run completes and otherwise holds the index of the failing batch. |
| ImportRun.Advance | functions/importCSV/3.2/index.js:608-634 | One batch: its writes are submitted and the checkpoint moves past it on success; on failure nothing changes. |
| ImportRun.ProcessFrom | functions/importCSV/3.2/index.js:599-637 | The loop from the checkpoint performs the run and deletes the checkpoint when it completes. |
| ImportRun.MissingColumnsSpec | functions/importCSV/3.2/index.js:512-521 | A column is reported exactly when it is a required (starred) key of the mappings and neither it nor its unstarred name is a column of the first line. |
| ImportRun.RequiredColumns | functions/importCSV/3.2/index.js:503-526 | Validation passes exactly when there are lines and every required key, starred or not, is a column of the first line; no lines is its own error; otherwise the missing columns are listed and there is at least one. |
| ImportRun.Gate | functions/importCSV/3.2/index.js:492-531 | No URL gives the no-URL message; passing needs a URL and, unbatched, no more than 50000 lines; in 3.2 with validation, passing needs the required columns. |
| ImportRun.ImportRecordCount | functions/importCSV/3.2/index.js:459-663 | An import writes no more records than the file has lines. |
| ImportRun.SettledAsWritten | functions/importCSV/3.2/index.js:558-560 | As written, an import without batches is the intended one; a batched import fails with the ReferenceError of the undeclared batch list. |
| ImportRun.BatchedFailsAsWritten | functions/importCSV/3.2/index.js:558-560 | As written, a batched import fails without a write and with its checkpoints untouched, so it differs from every intended batched import that succeeds. |
| ImportRun.Import | functions/importCSV/3.2/index.js:459-663 | The result and the writes and checkpoints of the store are those of the import; past the gate both mapping arrays are rewritten by the compile; refused at the gate they are untouched. |
| ImportRun.UniqueIdentifierV1 | functions/importCSV/1.0/index.js:200-213 | In 1.0 the no-identifier error is raised exactly when deduplicating with a unique column that no mapping names; a found identifier names that column. |
| ImportRun.ExistingV1 | functions/importCSV/1.0/index.js:234-244 | Without deduplication or lines nothing is read; deduplicating lines without an identifier fails with the TypeError of reading `value` of `undefined`. |
| ImportRun.ImportRecordCountV1 | functions/importCSV/1.0/index.js:177-339 | A 1.0 import writes no more records than the file has lines and leaves the checkpoints as they were. |
| ImportRun.ImportV1 | functions/importCSV/1.0/index.js:177-339 | The result and the writes and checkpoints are those of the 1.0 import; every mapping object is camel-cased in place. |
| ImportBatch.Split | functions/importCSV/3.2/index.js:12-23 | The loop yields the chunks of `size` lines, or one element per line when the size is not positive. |
| ImportBatch.SplitArrayFlattens | functions/importCSV/3.2/index.js:12-23 | The batches hold every line once and in order, whatever the size. |
| ImportBatch.SplitArraySizes | functions/importCSV/3.2/index.js:17-22 | For a positive size every batch is a list of `size` lines, except the last, which holds between one and `size`. |
| ImportBatch.BatchWrites | functions/importCSV/3.2/index.js:377-446 | At most two writes: a createMany first when there are records to create, holding them without `id`, and an upsertMany last when there are records to update. |
| ImportBatch.Store.CreateCheckpoint | functions/importCSV/3.2/index.js:586-597 | A checkpoint for the file is created at offset 0; nothing else changes. |
| ImportBatch.Store.SetOffset | functions/importCSV/3.2/index.js:626-630 | The file's offset is set; nothing else changes. |
| ImportBatch.Store.DeleteCheckpoint | functions/importCSV/3.2/index.js:637 | The file's checkpoint is removed; nothing else changes. |
| ImportBatch.Store.Submit | functions/importCSV/3.2/index.js:377-446 | The bulk writes are appended in order; the checkpoints are unchanged. |
| Helpers.BangsToUnderscores | functions/utils/helpers.js:6 | Every `!` becomes `_`; every other character and the length are kept. |
| Helpers.SnakeToCamel | functions/utils/helpers.js:3-7 | The result holds no `!`. |
| Helpers.SnakeToCamelWords | functions/utils/helpers.js:3-7 | Snake-case words joined by `_` become camel case: the first word as it is, each later word with its first letter upper-cased. |
| Helpers.SnakeToCamelOfWord | functions/utils/helpers.js:3-7 | A single word is left as it is. |
| Helpers.ReturnDateTimeValue | functions/utils/helpers.js:9-24 | The result is never longer than the text. |
| Helpers.ReturnDateTimeParts | functions/utils/helpers.js:9-24 | On a `yyyy-MM-dd HH:mm:ss` text, `date` gives the date part, `time` the time part and `datetime` both without the zone. |
| Helpers.ConvertToDBDateFormat | functions/utils/helpers.js:26-32 | The result is `null` or a text. |
| Helpers.ConvertToDBDateFormatOfIso | functions/utils/helpers.js:26-32 | When the text parses to an ISO date and time, the date type selects the date, the time, or both separated by a space. |
| Helpers.ConvertToDBDateFormatByLength | functions/importCSV/2.2/index.js:119-125 | The 2.x and 1.0 conversion gives `null` or a text no longer than the format. |
| Helpers.ConvertToBooleanAsWritten | functions/utils/helpers.js:34-46 | As written, the conversion throws exactly when the trimmed text is empty. |
| Helpers.ConvertToBooleanBlankThrows | functions/utils/helpers.js:34-46 | As written, "", " " and `null` throw instead of giving `false`. |
| Helpers.ConvertToBoolean | functions/utils/helpers.js:34-46 | The value is true exactly when its trimmed lower-cased text is none of "", "false" and "0". |
| Helpers.ConvertToBooleanAgrees | functions/utils/helpers.js:34-46 | Wherever the written conversion does not throw, it agrees with the intended one. |
| Helpers.ConvertToBooleanOfText | functions/utils/helpers.js:34-46 | A text with white space around a word is false exactly when the word is "false" or "0" in any case, and the written conversion agrees. |
| Helpers.ThrowErrorMessage | functions/utils/helpers.js:48-51 | The message thrown starts with "Error: " and has more after it. |
| Queries.GetAll | functions/utils/queries.js:21-42 | The recursion, as a loop, computes the paginated read. |
| Queries.AllRecordsExtends | functions/utils/queries.js:21-42 | A successful read keeps the results it was given as a prefix. |
| Queries.AllRecordsOfRows | functions/utils/queries.js:21-42 | Over a data set of at most 20000 records, a read from an offset appends every record from that offset on. |
| Queries.AllRecordsReadsAll | functions/utils/queries.js:21-42 | Over a data set of at most 20000 records, the read from 0 returns exactly the data set, whatever the page size. |
| Queries.AllRecordsTooLarge | functions/utils/queries.js:27-30 | A total count above 20000 aborts the read with the too-large message. |
| Queries.SharedAbortAsWritten | functions/utils/queries.js:27-30 | As written, the abort does not carry the explanation. |
| Queries.SharedAbort | functions/utils/queries.js:27-30 | With the shared helper in scope, the abort is "Error: " and the text the 2.2 copy throws. |
| Queries.SharedAbortDiffers | functions/utils/queries.js:27-30 | The written abort differs from the intended one. |

## Left out

- Reading the import file is left out. That covers the download, CSV and XLSX parsing (`getImportLines`, `getRecordsFromCSV`, papaparse, xlsx). An import is given its lines as rows of values.
- The GraphQL query text and its variables are left out. A read is an oracle from a query (model, filter, fields) to pages. The `where` text is modelled (`ImportLookup.GetWhere`), but its substitution into the query is not.
- Errors returned by GraphQL mutations and failures of the store are left out. A submitted write always succeeds.
- `getOne`, `createOne`, `updateOne` and `deleteOne` of `utils/mutations.js` are not part of this model. Their effect on the checkpoint records is modelled by the `ImportBatch.Store` methods.
- Logging is left out: `console.log`/`console.error` output, the timing and the "Finished batch" progress texts. The exception is `ImportRun.LoggedV21`, which gives what the 2.1 helper logs.
- `date-fns` (`parse`, `isValid`, `formatISO`) is an oracle parameter (`Helpers.DateLib`). The model states what the actions do with its answers, not the answers themselves. `parse` throws a RangeError on a format text with an unescaped letter it does not know (such as `yyyy-MM-ddTHH:mm`); the oracle answers only with a date or none, so that failure is not modelled.
- Floating point is modelled on exact reals. `parseFloat`, `Number` and `toFixed(2)` follow the decimal text without binary rounding. The decimal text of a non-integer number is approximated. Hexadecimal, octal and binary number literals are not recognised.
- Strings are sequences of Unicode characters rather than UTF-16 code units. `toLowerCase`/`toUpperCase` map ASCII letters only. `trim` removes JavaScript's white space.
- Concurrency and `await` ordering are left out. The actions await each call in turn, and the model runs them in that order.
- Aliasing between the property mapping array and the update mapping array is not modelled: `ImportRun.Import` and `ImportRun.ImportV1` require two distinct arrays. The mapping objects are values, so when the same object sits in both arrays, a rewrite through one array is not seen through the other.
- The batched branch of 3.2 and 2.2 assigns names it never declares (`importLinesToCreateInBatches` in 3.2, `recordsToCreateInBatches` in 2.2, and `where`, `i`, `batchRecordWithoutId` in both). As strict module code the first of these assignments throws (see "## Findings"). The model runs the branch as intended, with these names as local variables.
- Object properties whose value is `undefined` vanish from the JSON payloads of 2.x. The model keeps them in the rows it writes.
- ImportRun.Catch: the 2.2 outer catch throws the JSON text of the error with its own property names (`stack` and `message`). It is modelled as keeping the inner message, because the stack text is runtime-specific.
- ImportRun.Import: the texts the actions throw of themselves travel in `Messages`, so the contracts hold for any wording; `ImportRun.MessagesOf` gives each release's own wording.
- ImportRun.ExistingV1: the records read are whatever the oracle returns for the query; the contract states the cases without a read and the failure without an identifier.
- ImportRun.Existing: the read of the stored records is stated only through its failure cases and `Existing`'s use in the batch; the records read are whatever the oracle returns.
- ImportRecords.ReadCell: the correction keeps only a boolean stored under a starred key. Any other falsy value stored there (such as `""` or `0`) still falls back to the column without the star, as written, because a blank cell cannot be told apart from it.
- Operators.ParseOp: the operator table is looked up through own properties only. So an operator named after an inherited member (`toString`, `constructor`, `__proto__`, ...) gives "Invalid operator" in `ArrayFilter.Filter` and `ArrayFind.Find`. In the source, `toString` or `constructor` finds a function whose result is truthy, so every string or number item passes, and `__proto__` makes the first item throw "filterFn is not a function".
- ArrayMap.MapArray: the path is a text, so a missing path is not modelled. In the source, `path.includes('.')` then throws a TypeError before `map` is read.
- Js.GetProp: reads own properties only; inherited properties and methods are not modelled. So a reducer named after a member of `Object.prototype`, such as `toString`, gives the invalid-reducer error in the model, while the source finds the inherited method and calls it as the reducer.
- ArrayReduce.ReducerAsWritten: the table is looked up through own properties only, as `Js.GetProp` reads; see that line for the names of `Object.prototype` members.
- ImportFormat.FormattedV3: date kinds are stated as giving `null` or a text; which text depends on the date library oracle (`Helpers.ConvertToDBDateFormatOfIso` states it for an ISO answer).
- Helpers.ConvertToDBDateFormat: `isValid` is taken to accept exactly the finite numbers and dates. Parsing and ISO formatting are the oracle's, so the contract states only that the result is `null` or a text.
- The SharePoint actions are not part of this model: `sharepoint-access-token`, `sharepoint-find-drive-id`, `sharepoint-list-files-for-drive` and `sharepoint-download-file`.

## Findings

| source | as written | input that shows it | evidently intended | confidence | as-written member | corrected member |
|---|---|---|---|---|---|---|
| functions/utils/helpers.js:34-46 | `convertToBoolean` passes the empty text to `JSON.parse`, which throws (the same in the local copies 2.2:127, 2.1:49 and 1.0:38; 1.0 formats without a guard, so every blank or absent checkbox cell throws) | a checkbox cell `" "` or `null` | a blank value converts to `false` | not executed | Helpers.ConvertToBooleanAsWritten, Helpers.ConvertToBooleanBlankThrows | Helpers.ConvertToBoolean, Helpers.ConvertToBooleanOfText, ImportFormat.AbsentColumnV1 |
| functions/importCSV/3.2/index.js:498-501 | the 50000-line guard reads `totalCount` of the array of lines, which is `undefined`, so it never fires (the same in 2.2:644, 2.1:374 and 1.0:229) | a file of 50001 lines, not batched | more than 50000 lines are refused | not executed | ImportRecords.TooManyLinesAsWritten, ImportRecords.LineGuardIsDead | ImportRecords.TooManyLines, ImportRun.Gate |
| functions/utils/queries.js:27-30 | `getAll` calls `throwError`, which the module neither declares nor imports | a data set of 20001 records | the read aborts with the too-large explanation | not executed | Queries.SharedAbortAsWritten, Queries.SharedAbortDiffers | Queries.SharedAbort, Queries.AllRecordsTooLarge |
| functions/importCSV/3.2/index.js:545-547 | the update mappings are compiled without the format mappings, so `formatMappings.find` on `undefined` throws for a relation mapping (the same in 2.2:660 and 2.1:390) | an update mapping with value `customer.name` | update mappings compile like the main ones | not executed | ImportMappings.CompileWithoutFormatsFails | ImportMappings.CompileWithFormats, ImportRun.Import |
| functions/importCSV/3.2/index.js:129-131 | a starred column is read with `\|\|`, so a falsy formatted cell (`false`, `""`, `0`) falls back to the unstarred column | a required checkbox column `active*` absent from the file, with `active` holding `"0"`: it is formatted to `false` and then read back as `"0"` | a boolean the checkbox format wrote is read back; every other cell is read as written | not executed | ImportRecords.ReadCellAsWritten, ImportRecords.FalsyCellFallsBack, ImportFormat.StarredCheckboxLost | ImportRecords.ReadCell, ImportRecords.ReadCellReadsBack, ImportRecords.ReadCellAsWrittenElsewhere |
| functions/importCSV/3.2/index.js:558-560 | the batched branch assigns `importLinesToCreateInBatches` without declaring it; module code is strict, so the assignment throws a ReferenceError before any batch runs (the same in 2.2:675 with `recordsToCreateInBatches`) | any import with `batched` set | the batches are run from the file's checkpoint | not executed | ImportRun.SettledAsWritten, ImportRun.BatchedFailsAsWritten | ImportRun.RunBatches, ImportRun.RunStops, ImportRun.ResumeCompletes |
| functions/array-reduce/1.0/index.js:22-40 | `count` has a default start but no reducer, so it is rejected as an invalid reducer | reducer `count` on `[1, 2]` | `count` gives the number of items | not executed | ArrayReduce.ReducerAsWritten, ArrayReduce.CountRejectedAsWritten | ArrayReduce.ReducerOf, ArrayReduce.ReduceCount |
| functions/importCSV/2.1/index.js:552-554 | the outer catch passes an Error to `throwError`, whose `JSON.stringify` of an Error is `"{}"` (the same in 1.0:336-338) | a mapping for the unique column that is missing | the thrown message keeps the inner message | not executed | ImportRun.CatchV21AsWritten, ImportRun.CatchV21LosesMessage | ImportRun.Catch, ImportRun.CatchKeepsMessage |
