/** `rewrite_table` and `verify_multiset`: the Parquet files of a table are rewritten
    into fewer files; every cell but `run_id` is kept. */
module Rewrite {
  import opened Wrappers
  import opened ParquetFiles

  const REQUIRED: set<string> :=
    {"run_id", "source_date", "source_id", "source_version", "ingested_at", "content_hash", "payload"}

  /** The rows of the first `n` files, in order. */
  function RowsUpTo(files: seq<ParquetFile>, n: nat): seq<Row>
    requires n <= |files|
  {
    if n == 0 then [] else RowsUpTo(files, n - 1) + Flatten(files[n - 1].batches)
  }

  function Rows(files: seq<ParquetFile>): seq<Row> { RowsUpTo(files, |files|) }

  /* `verify_schema` */

  predicate SameKinds(files: seq<ParquetFile>) {
    forall i, j, c :: 0 <= i < |files| && 0 <= j < |files| && c in files[i].schema && c in files[j].schema ==>
      files[i].schema[c].kind == files[j].schema[c].kind
  }

  /** The unified schema of the first `n` files; a column is nullable when it is in any. */
  function Unified(files: seq<ParquetFile>, n: nat): Schema
    requires n <= |files|
  {
    if n == 0 then map[]
    else
      var rest, own := Unified(files, n - 1), files[n - 1].schema;
      map c | c in rest.Keys + own.Keys ::
        if c !in rest then own[c]
        else if c !in own then rest[c]
        else Column(own[c].kind, own[c].nullable || rest[c].nullable)
  }

  /** No file lacks a column that may not be null, and the Bronze columns are there. */
  predicate SchemaOk(files: seq<ParquetFile>) {
    var schema := Unified(files, |files|);
    && SameKinds(files)
    && (forall c, i :: c in schema && !schema[c].nullable && 0 <= i < |files| ==> c in files[i].schema)
    && REQUIRED <= schema.Keys && schema["run_id"].kind == StringKind
  }

  /* Rewriting rows. */

  /** The row with every column of the schema, absent ones null, under a run id. */
  function Relabel(row: Row, schema: Schema, runId: string): Row {
    Row(map c | c in schema :: if c == "run_id" then Text(runId) else CellOf(row, c), row.sound)
  }

  function RelabelAll(rows: seq<Row>, schema: Schema, runId: string): (relabeled: seq<Row>)
    ensures |relabeled| == |rows| && forall i :: 0 <= i < |rows| ==> relabeled[i] == Relabel(rows[i], schema, runId)
  {
    seq(|rows|, i requires 0 <= i < |rows| => Relabel(rows[i], schema, runId))
  }

  lemma FlattenAppend<T>(parts: seq<seq<T>>, part: seq<T>)
    ensures Flatten(parts + [part]) == Flatten(parts) + part
  {
    JoinedFrame(parts, parts + [part], |parts|);
  }

  lemma RowsOkConcat(a: seq<Row>, b: seq<Row>, runId: string, date: int)
    ensures RowsOk(a + b, runId, date) <==> RowsOk(a, runId, date) && RowsOk(b, runId, date)
  {
    if RowsOk(a + b, runId, date) {
      forall i | 0 <= i < |a| ensures RowOk(a[i], runId, date) { assert (a + b)[i] == a[i]; }
      forall i | 0 <= i < |b| ensures RowOk(b[i], runId, date) { assert (a + b)[|a| + i] == b[i]; }
    }
  }

  lemma RelabelConcat(a: seq<Row>, b: seq<Row>, schema: Schema, runId: string)
    ensures RelabelAll(a + b, schema, runId) == RelabelAll(a, schema, runId) + RelabelAll(b, schema, runId)
  {
  }

  /** Rows written so far: closed files, then the open one. */
  function Written(closed: seq<seq<Row>>, open: Option<seq<Row>>): seq<Row> {
    Flatten(closed) + (if open.Some? then open.value else [])
  }

  lemma WrittenClose(closed: seq<seq<Row>>, open: seq<Row>)
    ensures Written(closed + [open], None) == Written(closed, Some(open))
  {
    FlattenAppend(closed, open);
  }

  /** No file ever reaches the target size. */
  ghost predicate NeverFull(sizes: seq<nat>, targetBytes: int) {
    targetBytes > 0 && forall i :: 0 <= i < |sizes| ==> sizes[i] < targetBytes
  }

  /** What `tell` answers after the batch `k`. */
  function ToldAt(sizes: seq<nat>, k: nat): nat { if k < |sizes| then sizes[k] else 0 }

  /** The files closed during the first `n` batches. */
  function Closings(sizes: seq<nat>, n: nat, targetBytes: int): nat {
    if n == 0 then 0 else Closings(sizes, n - 1, targetBytes) + (if ToldAt(sizes, n - 1) >= targetBytes then 1 else 0)
  }

  /** The files that so many batches become: one for each time the target is reached, and
      one for what is left, or for the schema alone. */
  function FileCount(sizes: seq<nat>, batches: nat, targetBytes: int): nat {
    Closings(sizes, batches, targetBytes) + (if batches == 0 || ToldAt(sizes, batches - 1) < targetBytes then 1 else 0)
  }

  function BatchCount(files: seq<ParquetFile>, n: nat): nat
    requires n <= |files|
  {
    if n == 0 then 0 else BatchCount(files, n - 1) + |files[n - 1].batches|
  }

  lemma {:induction false} NeverClosed(sizes: seq<nat>, n: nat, targetBytes: int)
    requires NeverFull(sizes, targetBytes)
    ensures Closings(sizes, n, targetBytes) == 0 && FileCount(sizes, n, targetBytes) == 1
  {
    if n > 0 { NeverClosed(sizes, n - 1, targetBytes); }
  }

  class Rewriter {
    const schema: Schema
    const runId: string
    const targetBytes: int

    /** What `sink.tell()` answers after each batch; any sizes at all. */
    const sizes: seq<nat>

    /** The batches written. */
    var written: nat

    /** The rows of the closed output files, and of the open one. */
    var closed: seq<seq<Row>>
    var open: Option<seq<Row>>

    /** Files are closed once they reach the target size, and no later. */
    ghost predicate Rotated()
      reads this
    {
      && |closed| == Closings(sizes, written, targetBytes)
      && (open.Some? <==> written > 0 && ToldAt(sizes, written - 1) < targetBytes)
    }

    ghost function Output(): seq<Row>
      reads this
    {
      Written(closed, open)
    }

    constructor (schema: Schema, runId: string, targetBytes: int, sizes: seq<nat>)
      ensures this.schema == schema && this.runId == runId && this.targetBytes == targetBytes
      ensures this.sizes == sizes && written == 0 && closed == [] && open == None && Output() == [] && Rotated()
    {
      this.schema, this.runId, this.targetBytes, this.sizes := schema, runId, targetBytes, sizes;
      written, closed, open := 0, [], None;
    }

    /** One batch: checked, relabeled, written, and the file closed when it is large enough. */
    method WriteBatch(batch: seq<Row>, baselineRun: string, date: int) returns (ok: bool)
      requires Rotated()
      modifies this
      ensures Rotated()
      ensures ok == RowsOk(batch, baselineRun, date)
      ensures ok ==> written == old(written) + 1
      ensures ok ==> Output() == old(Output()) + RelabelAll(batch, schema, runId)
    {
      for i := 0 to |batch|
        invariant RowsOk(batch[..i], baselineRun, date)
        invariant closed == old(closed) && open == old(open) && written == old(written)
      {
        if !RowOk(batch[i], baselineRun, date) {
          return false;
        }
      }
      var rows := RelabelAll(batch, schema, runId);
      if open.None? {
        open := Some([]);
      }
      open := Some(open.value + rows);
      assert Written(closed, open) == old(Output()) + rows;
      written := written + 1;
      if ToldAt(sizes, written - 1) >= targetBytes {
        WrittenClose(closed, open.value);
        closed, open := closed + [open.value], None;
      }
      return true;
    }

    static lemma OneMoreBatch(before: seq<Row>, out: seq<Row>, out': seq<Row>, done: seq<Row>, batch: seq<Row>, schema: Schema,
                              runId: string)
      requires out == before + RelabelAll(done, schema, runId) && out' == out + RelabelAll(batch, schema, runId)
      ensures out' == before + RelabelAll(done + batch, schema, runId)
    {
    }

    /** Every batch of a file. */
    method WriteFile(batches: seq<seq<Row>>, baselineRun: string, date: int) returns (ok: bool)
      requires Rotated()
      modifies this
      ensures Rotated()
      ensures ok == RowsOk(Flatten(batches), baselineRun, date)
      ensures ok ==> written == old(written) + |batches|
      ensures ok ==> Output() == old(Output()) + RelabelAll(Flatten(batches), schema, runId)
    {
      for i := 0 to |batches|
        invariant Rotated() && RowsOk(Joined(batches, i), baselineRun, date) && written == old(written) + i
        invariant Output() == old(Output()) + RelabelAll(Joined(batches, i), schema, runId)
      {
        ghost var written := Output();
        RowsOkConcat(Joined(batches, i), batches[i], baselineRun, date);
        ok := WriteBatch(batches[i], baselineRun, date);
        if !ok {
          PrefixNotOk(batches, i + 1, baselineRun, date);
          return;
        }
        OneMoreBatch(old(Output()), written, Output(), Joined(batches, i), batches[i], schema, runId);
      }
      ok := true;
    }

    /** Every file, counting the rows. */
    method WriteFiles(files: seq<ParquetFile>, baselineRun: string, date: int) returns (ok: bool, count: nat)
      requires Output() == [] && Rotated()
      modifies this
      ensures Rotated()
      ensures ok == RowsOk(Rows(files), baselineRun, date)
      ensures ok ==> written == old(written) + BatchCount(files, |files|)
      ensures ok ==> Output() == RelabelAll(Rows(files), schema, runId) && count == |Rows(files)|
    {
      count := 0;
      for i := 0 to |files|
        invariant Rotated() && RowsOk(RowsUpTo(files, i), baselineRun, date) && count == |RowsUpTo(files, i)|
        invariant written == old(written) + BatchCount(files, i)
        invariant Output() == RelabelAll(RowsUpTo(files, i), schema, runId)
      {
        RelabelConcat(RowsUpTo(files, i), Flatten(files[i].batches), schema, runId);
        RowsOkConcat(RowsUpTo(files, i), Flatten(files[i].batches), baselineRun, date);
        ok := WriteFile(files[i].batches, baselineRun, date);
        if !ok {
          FilesNotOk(files, i + 1, baselineRun, date);
          return;
        }
        count := count + |Flatten(files[i].batches)|;
      }
      ok := true;
    }

    /** Close the open file; an empty table still gets one file, for its schema. */
    method Close(count: nat) returns (parts: seq<seq<Row>>)
      requires count == |Output()| && Rotated()
      modifies this
      ensures parts != [] && Flatten(parts) == old(Output())
      ensures |parts| == FileCount(sizes, old(written), targetBytes)
    {
      if open.Some? {
        WrittenClose(closed, open.value);
        closed, open := closed + [open.value], None;
      }
      parts := closed;
      if count == 0 && parts == [] {
        parts := [[]];
        assert Joined(parts, 1) == Joined(parts, 0) + parts[0];
      }
    }

    static lemma {:induction false} PrefixNotOk(batches: seq<seq<Row>>, n: nat, runId: string, date: int)
      requires n <= |batches| && !RowsOk(Joined(batches, n), runId, date)
      ensures !RowsOk(Flatten(batches), runId, date)
      decreases |batches| - n
    {
      if n < |batches| {
        RowsOkConcat(Joined(batches, n), batches[n], runId, date);
        PrefixNotOk(batches, n + 1, runId, date);
      }
    }
  }

  /** The output files: as many rows as the input, in order, none lost at a rotation. */
  method RewriteTable(files: seq<ParquetFile>, baselineRun: string, runId: string, date: int, targetBytes: int, sizes: seq<nat>)
    returns (outputs: Option<seq<ParquetFile>>, count: nat)
    ensures outputs.Some? <==> SchemaOk(files) && RowsOk(Rows(files), baselineRun, date)
    ensures outputs.Some? ==> IsRewrite(files, outputs.value, runId) && count == |Rows(files)|
    ensures outputs.Some? ==> |outputs.value| == FileCount(sizes, BatchCount(files, |files|), targetBytes)
  {
    if !SchemaOk(files) {
      return None, 0;
    }
    var schema := Unified(files, |files|);
    var rewriter := new Rewriter(schema, runId, targetBytes, sizes);
    var ok;
    ok, count := rewriter.WriteFiles(files, baselineRun, date);
    if !ok {
      return None, 0;
    }
    var parts := rewriter.Close(count);
    AsFilesRows(schema, parts, |parts|);
    return Some(AsFiles(schema, parts)), count;
  }

  lemma {:induction false} FilesNotOk(files: seq<ParquetFile>, n: nat, runId: string, date: int)
    requires n <= |files| && !RowsOk(RowsUpTo(files, n), runId, date)
    ensures !RowsOk(Rows(files), runId, date)
    decreases |files| - n
  {
    if n < |files| {
      RowsOkConcat(RowsUpTo(files, n), Flatten(files[n].batches), runId, date);
      FilesNotOk(files, n + 1, runId, date);
    }
  }

  function AsFiles(schema: Schema, parts: seq<seq<Row>>): (files: seq<ParquetFile>)
    ensures |files| == |parts| && forall i :: 0 <= i < |parts| ==> files[i] == ParquetFile(schema, [parts[i]])
  {
    seq(|parts|, i requires 0 <= i < |parts| => ParquetFile(schema, [parts[i]]))
  }

  lemma {:induction false} AsFilesRows(schema: Schema, parts: seq<seq<Row>>, n: nat)
    requires n <= |parts|
    ensures RowsUpTo(AsFiles(schema, parts), n) == Joined(parts, n)
  {
    if n > 0 {
      AsFilesRows(schema, parts, n - 1);
      assert Flatten([parts[n - 1]]) == Joined([parts[n - 1]], 0) + parts[n - 1];
    }
  }

  /** The output files hold the input rows in order, every cell kept but `run_id`, absent
      columns null, under the unified schema; there is always at least one file. */
  ghost predicate IsRewrite(files: seq<ParquetFile>, outputs: seq<ParquetFile>, runId: string) {
    && outputs != []
    && (forall i :: 0 <= i < |outputs| ==> outputs[i].schema == Unified(files, |files|))
    && Rows(outputs) == RelabelAll(Rows(files), Unified(files, |files|), runId)
  }

  /* `verify_multiset` */

  /** What the comparison sees of a row: every column but `run_id`. */
  function Visible(row: Row, columns: set<string>): map<string, Cell> {
    map c | c in columns && c != "run_id" :: CellOf(row, c)
  }

  function VisibleAll(rows: seq<Row>, columns: set<string>): (visible: seq<map<string, Cell>>)
    ensures |visible| == |rows| && forall i :: 0 <= i < |rows| ==> visible[i] == Visible(rows[i], columns)
  {
    seq(|rows|, i requires 0 <= i < |rows| => Visible(rows[i], columns))
  }

  function Columns(files: seq<ParquetFile>): set<string> { Unified(files, |files|).Keys }

  /** `EXCEPT ALL` both ways finds nothing exactly when the multisets are equal. */
  method VerifyMultiset(inputs: seq<ParquetFile>, outputs: seq<ParquetFile>) returns (ok: bool)
    ensures ok <==> Columns(inputs) == Columns(outputs)
                    && multiset(VisibleAll(Rows(inputs), Columns(inputs))) == multiset(VisibleAll(Rows(outputs), Columns(outputs)))
  {
    if Columns(inputs) != Columns(outputs) {
      return false;
    }
    var before := multiset(VisibleAll(Rows(inputs), Columns(inputs)));
    var after := multiset(VisibleAll(Rows(outputs), Columns(outputs)));
    if before - after != multiset{} {
      assert before == after ==> before - after == multiset{};
      return false;
    }
    if after - before != multiset{} {
      assert before == after ==> after - before == multiset{};
      return false;
    }
    NoDifference(before, after);
    return true;
  }

  lemma NoDifference<T>(a: multiset<T>, b: multiset<T>)
    requires a - b == multiset{} && b - a == multiset{}
    ensures a == b
  {
  }

  lemma {:induction false} OneSchema(files: seq<ParquetFile>, schema: Schema, n: nat)
    requires n <= |files| && forall i :: 0 <= i < |files| ==> files[i].schema == schema
    ensures Unified(files, n) == if n == 0 then map[] else schema
  {
    if n > 0 {
      OneSchema(files, schema, n - 1);
      forall c | c in schema ensures Unified(files, n)[c] == schema[c] { }
    }
  }

  /** A rewrite always passes the check that guards it. */
  lemma RewritePasses(files: seq<ParquetFile>, outputs: seq<ParquetFile>, runId: string)
    requires IsRewrite(files, outputs, runId)
    ensures Columns(outputs) == Columns(files)
    ensures VisibleAll(Rows(files), Columns(files)) == VisibleAll(Rows(outputs), Columns(outputs))
  {
    var schema := Unified(files, |files|);
    OneSchema(outputs, schema, |outputs|);
    forall i | 0 <= i < |Rows(files)|
      ensures Visible(Rows(files)[i], schema.Keys) == Visible(Rows(outputs)[i], schema.Keys)
    {
      assert Rows(outputs)[i] == Relabel(Rows(files)[i], schema, runId);
    }
  }

  /* What a rewrite keeps. */

  predicate HasColumn(files: seq<ParquetFile>, i: int, c: string) {
    0 <= i < |files| && c in files[i].schema
  }

  /** The unified schema has the columns of all the files, of the kind they have there,
      nullable when one of them is. */
  lemma {:induction false} UnifiedMeaning(files: seq<ParquetFile>, n: nat, c: string)
    requires n <= |files| && SameKinds(files)
    ensures c in Unified(files, n) <==> exists i :: i < n && HasColumn(files, i, c)
    ensures c in Unified(files, n) ==> forall i :: i < n && HasColumn(files, i, c) ==> Unified(files, n)[c].kind == files[i].schema[c].kind
    ensures c in Unified(files, n) ==>
              (Unified(files, n)[c].nullable <==> exists i :: i < n && HasColumn(files, i, c) && files[i].schema[c].nullable)
  {
    if n > 0 {
      UnifiedMeaning(files, n - 1, c);
      assert HasColumn(files, n - 1, c) <==> c in files[n - 1].schema;
      forall i | i < n - 1 && HasColumn(files, i, c) ensures c in Unified(files, n - 1) { }
    }
  }

  /** The row has the cells of another in all of these columns, and its payload is as sound;
      only the run id is new. */
  predicate SameCells(row: Row, row': Row, columns: set<string>, runId: string) {
    && row'.cells.Keys == columns && row'.sound == row.sound
    && forall c :: c in columns ==> row'.cells[c] == if c == "run_id" then Text(runId) else CellOf(row, c)
  }

  /** A rewrite keeps the rows of the files one for one and in order, with every column that
      any of the files has. */
  lemma RewriteKeepsRows(files: seq<ParquetFile>, outputs: seq<ParquetFile>, runId: string)
    requires SameKinds(files) && IsRewrite(files, outputs, runId)
    ensures |Rows(outputs)| == |Rows(files)|
    ensures forall i :: 0 <= i < |Rows(files)| ==> SameCells(Rows(files)[i], Rows(outputs)[i], Columns(files), runId)
    ensures forall c :: c in Columns(files) <==> exists i :: HasColumn(files, i, c)
    ensures forall j, c :: 0 <= j < |outputs| && c in outputs[j].schema ==>
              && c in Columns(files)
              && (outputs[j].schema[c].nullable <==> exists i :: HasColumn(files, i, c) && files[i].schema[c].nullable)
              && forall i :: HasColumn(files, i, c) ==> outputs[j].schema[c].kind == files[i].schema[c].kind
  {
    var schema := Unified(files, |files|);
    forall c ensures c in schema <==> exists i :: HasColumn(files, i, c) { UnifiedMeaning(files, |files|, c); }
    forall i | 0 <= i < |Rows(files)| ensures SameCells(Rows(files)[i], Rows(outputs)[i], schema.Keys, runId) {
      assert Rows(outputs)[i] == Relabel(Rows(files)[i], schema, runId);
    }
    forall j, c | 0 <= j < |outputs| && c in outputs[j].schema
      ensures (outputs[j].schema[c].nullable <==> exists i :: HasColumn(files, i, c) && files[i].schema[c].nullable)
              && forall i :: HasColumn(files, i, c) ==> outputs[j].schema[c].kind == files[i].schema[c].kind
    {
      UnifiedMeaning(files, |files|, c);
    }
  }
}
