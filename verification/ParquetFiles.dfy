/** Parquet files of Bronze records, and the checks every reader makes of a record. */
module ParquetFiles {
  /** A cell; `Dated` is a text or date that starts with a calendar day. */
  datatype Cell = Null | Text(s: string) | Dated(day: int, rest: string) | Other(v: int)

  /** A record by column name. `sound` says that its payload matches its content hash,
      which depends on cells no rewrite changes. */
  datatype Row = Row(cells: map<string, Cell>, sound: bool)

  datatype Kind = StringKind | OtherKind(id: int)

  datatype Column = Column(kind: Kind, nullable: bool)

  type Schema = map<string, Column>

  /** A file, batch by batch. */
  datatype ParquetFile = ParquetFile(schema: Schema, batches: seq<seq<Row>>)

  /** The first `n` parts joined. */
  function Joined<T>(parts: seq<seq<T>>, n: nat): seq<T>
    requires n <= |parts|
  {
    if n == 0 then [] else Joined(parts, n - 1) + parts[n - 1]
  }

  function Flatten<T>(parts: seq<seq<T>>): seq<T> { Joined(parts, |parts|) }

  lemma {:induction false} JoinedFrame<T>(parts: seq<seq<T>>, more: seq<seq<T>>, n: nat)
    requires n <= |parts| <= |more| && forall i :: 0 <= i < n ==> parts[i] == more[i]
    ensures Joined(parts, n) == Joined(more, n)
  {
    if n > 0 { JoinedFrame(parts, more, n - 1); }
  }

  function CellOf(row: Row, column: string): Cell {
    if column in row.cells then row.cells[column] else Null
  }

  /** The record belongs to this attempt, and its payload is sound where that is asked. */
  predicate Readable(row: Row, runId: string, date: int, verifyHash: bool) {
    && CellOf(row, "run_id") == Text(runId)
    && CellOf(row, "source_date").Dated? && CellOf(row, "source_date").day == date && (verifyHash ==> row.sound)
  }

  /** The checks on a record whose hash is verified too. */
  predicate RowOk(row: Row, runId: string, date: int) { Readable(row, runId, date, true) }

  predicate RowsOk(rows: seq<Row>, runId: string, date: int) {
    forall i :: 0 <= i < |rows| ==> RowOk(rows[i], runId, date)
  }
}
