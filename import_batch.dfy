/** The batching of an import (`splitArray` of 3.2 and 2.2) and the store the actions write
    to: the checkpoint records that remember how far the import of a file has got, and the
    `createMany` / `upsertMany` payloads submitted. */
module ImportBatch {
  import opened ImportRecords
  import opened ImportReconcile

  // ---------------------------------------------------------------------------
  // Splitting the lines
  // ---------------------------------------------------------------------------

  /** One element of the split list: a chunk of lines, or, when the size is not positive, a
      line itself (the list split is then the list of lines). */
  datatype Batch = Lines(rows: seq<Row>) | Line(row: Row)

  /** The lines a batch stands for. */
  function Rows(b: Batch): seq<Row> {
    match b
    case Lines(rows) => rows
    case Line(row) => [row]
  }

  /** The lines of the batches, in order. */
  function Flatten(bs: seq<Batch>): seq<Row>
    decreases |bs|
  {
    if bs == [] then [] else Rows(bs[0]) + Flatten(bs[1..])
  }

  function Min(a: int, b: int): int {
    if a <= b then a else b
  }

  /** Consecutive chunks of `size` lines, the last one possibly shorter. */
  function Chunks(lines: seq<Row>, size: nat): seq<Batch>
    requires size > 0
    decreases |lines|
  {
    if |lines| <= size then (if lines == [] then [] else [Lines(lines)])
    else [Lines(lines[..size])] + Chunks(lines[size..], size)
  }

  /** `splitArray(lines, size)`: the chunks for a positive size, the lines themselves else. */
  function SplitArray(lines: seq<Row>, size: int): seq<Batch> {
    if size <= 0 then seq(|lines|, i requires 0 <= i < |lines| => Line(lines[i]))
    else Chunks(lines, size)
  }

  /** The loop of `splitArray`, pushing `lines.slice(i, i + size)` for `i = 0, size, ...`. */
  method Split(lines: seq<Row>, size: int) returns (r: seq<Batch>)
    ensures r == SplitArray(lines, size)
  {
    if size <= 0 {
      return seq(|lines|, i requires 0 <= i < |lines| => Line(lines[i]));
    }
    r := [];
    var i := 0;
    while i < |lines|
      invariant 0 <= i
      invariant i < |lines| ==> r + Chunks(lines[i..], size) == Chunks(lines, size)
      invariant i >= |lines| ==> r == Chunks(lines, size)
    {
      var rest := lines[i..];
      assert rest[..Min(size, |rest|)] == lines[i..Min(i + size, |lines|)];
      if |rest| > size {
        assert rest[size..] == lines[i + size..];
        assert r + Chunks(rest, size) == (r + [Lines(rest[..size])]) + Chunks(rest[size..], size);
      } else {
        assert Chunks(rest, size) == [Lines(rest)];
        assert lines[i..Min(i + size, |lines|)] == rest;
      }
      r := r + [Lines(lines[i..Min(i + size, |lines|)])];
      i := i + size;
    }
  }

  /** The batches hold every line once and in order, whatever the size. */
  lemma SplitArrayFlattens(lines: seq<Row>, size: int)
    ensures Flatten(SplitArray(lines, size)) == lines
  {
    if size <= 0 {
      LinesFlatten(lines);
    } else {
      ChunksFlatten(lines, size);
    }
  }

  lemma {:induction false} LinesFlatten(lines: seq<Row>)
    ensures Flatten(seq(|lines|, i requires 0 <= i < |lines| => Line(lines[i]))) == lines
    decreases |lines|
  {
    if lines != [] {
      var bs := seq(|lines|, i requires 0 <= i < |lines| => Line(lines[i]));
      assert bs[1..] == seq(|lines| - 1, i requires 0 <= i < |lines| - 1 => Line(lines[1..][i]));
      LinesFlatten(lines[1..]);
      assert lines == [lines[0]] + lines[1..];
    }
  }

  lemma {:induction false} ChunksFlatten(lines: seq<Row>, size: nat)
    requires size > 0
    ensures Flatten(Chunks(lines, size)) == lines
    decreases |lines|
  {
    if |lines| > size {
      var bs := Chunks(lines, size);
      assert bs[1..] == Chunks(lines[size..], size);
      ChunksFlatten(lines[size..], size);
      assert lines == lines[..size] + lines[size..];
    } else if lines != [] {
      assert Flatten([Lines(lines)]) == lines + Flatten([]);
    }
  }

  /** For a positive size every batch is a chunk, of `size` lines except the last, which holds
      between one and `size` lines. */
  lemma {:induction false} SplitArraySizes(lines: seq<Row>, size: int)
    requires size > 0
    ensures var bs := SplitArray(lines, size);
            (forall k :: 0 <= k < |bs| ==> bs[k].Lines?) &&
            (forall k :: 0 <= k < |bs| - 1 ==> |bs[k].rows| == size) &&
            (bs != [] ==> 0 < |bs[|bs| - 1].rows| <= size)
    decreases |lines|
  {
    if |lines| > size {
      SplitArraySizes(lines[size..], size);
      var bs := Chunks(lines, size);
      assert bs[1..] == Chunks(lines[size..], size);
      assert forall k :: 1 <= k < |bs| ==> bs[k] == bs[1..][k - 1];
    }
  }

  // ---------------------------------------------------------------------------
  // The store
  // ---------------------------------------------------------------------------

  /** A bulk write: the records of a `createMany` or of an `upsertMany` mutation. */
  datatype Write = CreateMany(records: seq<Row>) | UpsertMany(records: seq<Row>)

  /** The writes of one prepared batch: the records to create without their `id`, then the
      records to update, each only when there is one. */
  function BatchWrites(p: Prepared): (r: seq<Write>)
    ensures |r| <= 2
    ensures p.creates != [] <==> |r| > 0 && r[0].CreateMany?
    ensures p.updates != [] <==> |r| > 0 && r[|r| - 1].UpsertMany?
    ensures forall k :: 0 <= k < |r| && r[k].CreateMany? ==> k == 0 && r[k].records == StripIds(p.creates)
    ensures forall k :: 0 <= k < |r| && r[k].UpsertMany? ==> k == |r| - 1 && r[k].records == p.updates
  {
    (if p.creates != [] then [CreateMany(StripIds(p.creates))] else []) +
    (if p.updates != [] then [UpsertMany(p.updates)] else [])
  }

  /** The data store of the actions as far as an import touches it: the checkpoint records,
      one per file URL holding the index of the next batch to import, and the log of the
      bulk writes submitted. */
  class Store {
    var checkpoints: map<string, nat>
    var writes: seq<Write>

    constructor ()
      ensures checkpoints == map[] && writes == []
    {
      checkpoints := map[];
      writes := [];
    }

    /** `createOne` of a checkpoint record for a file, at offset 0. */
    method CreateCheckpoint(url: string)
      modifies this
      ensures checkpoints == old(checkpoints)[url := 0]
      ensures writes == old(writes)
    {
      checkpoints := checkpoints[url := 0];
    }

    /** `updateOne` of the offset of the checkpoint record of a file. */
    method SetOffset(url: string, offset: nat)
      modifies this
      ensures checkpoints == old(checkpoints)[url := offset]
      ensures writes == old(writes)
    {
      checkpoints := checkpoints[url := offset];
    }

    /** `deleteOne` of the checkpoint record of a file. */
    method DeleteCheckpoint(url: string)
      modifies this
      ensures checkpoints == old(checkpoints) - {url}
      ensures writes == old(writes)
    {
      checkpoints := checkpoints - {url};
    }

    /** The bulk mutations, submitted in order. */
    method Submit(ws: seq<Write>)
      modifies this
      ensures writes == old(writes) + ws
      ensures checkpoints == old(checkpoints)
    {
      writes := writes + ws;
    }
  }
}
