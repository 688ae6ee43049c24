/** The rows of the `bronze_meta` tables that publication depends on, and the
    constraints PostgreSQL checks on them. */
module MetadataTables {
  import opened Wrappers

  /** A UUID. Every `uuid4()` draw is an input of the step that makes it; only
      the primary keys keep two draws apart. */
  type Id = int

  datatype Identity = Identity(source: string, resource: string, date: int)

  datatype PartitionRow = PartitionRow(identity: Identity, current: Option<Id>, createdAt: int)

  datatype Holder = Holder(attempt: Id, owner: Id, heartbeat: int, expires: int)

  /** The four nullable holder columns are one option: `holder_complete` allows
      no other combination. */
  datatype LeaseRow = LeaseRow(generation: int, holder: Option<Holder>)

  datatype AttemptStatus = Running | Success | Failed | Canceled | Abandoned

  datatype AttemptRow = AttemptRow(partition: Id, request: Id, kind: string, status: AttemptStatus, owner: Id,
                                   generation: int, base: Option<Id>, startedAt: int, completedAt: Option<int>)

  datatype CommitRow = CommitRow(partition: Id, attempt: Id, parent: Option<Id>,
                                 recordCount: int, fileCount: int, committedAt: int)

  datatype FileRow = FileRow(table: string, bucket: string, objectKey: string,
                             rowCount: int, sizeBytes: int, sha256: string, schemaVersion: int)

  /** A file as its publisher describes it: its number and its row. */
  datatype FileEntry = FileEntry(number: int, row: FileRow)

  datatype Tables = Tables(partitions: map<Id, PartitionRow>, leases: map<Id, LeaseRow>,
                           attempts: map<Id, AttemptRow>, commits: map<Id, CommitRow>,
                           files: map<(Id, int), FileRow>)

  const EMPTY := Tables(map[], map[], map[], map[], map[])

  const KINDS: set<string> := {"ingestion", "refresh", "compaction", "import", "repair"}

  /* What each INSERT or UPDATE must satisfy; a violation aborts the transaction. */

  predicate PartitionInsertable(db: Tables, id: Id, row: PartitionRow) {
    && id !in db.partitions
    && (forall p :: p in db.partitions ==> db.partitions[p].identity != row.identity)
    && row.identity.source != "" && row.identity.resource != ""
  }

  predicate AttemptInsertable(db: Tables, id: Id, row: AttemptRow) {
    && id !in db.attempts
    && row.partition in db.partitions
    && (forall a :: a in db.attempts ==> db.attempts[a].request != row.request)
    && row.kind in KINDS
    && row.generation > 0
    && CompletionOk(row)
    && CommitOfPartition(db, row.partition, row.base)
  }

  /** CHECK `completion` of the attempts table. */
  predicate CompletionOk(row: AttemptRow) {
    if row.status == Running then row.completedAt.None?
    else row.completedAt.Some? && row.completedAt.value >= row.startedAt
  }

  /** A nullable (partition, commit) foreign key. */
  predicate CommitOfPartition(db: Tables, partition: Id, commit: Option<Id>) {
    commit.Some? ==> commit.value in db.commits && db.commits[commit.value].partition == partition
  }

  predicate CommitInsertable(db: Tables, id: Id, row: CommitRow) {
    && id !in db.commits
    && row.partition in db.partitions
    && (forall c :: c in db.commits ==> db.commits[c].attempt != row.attempt)
    && row.attempt in db.attempts && db.attempts[row.attempt].partition == row.partition
    && row.parent != Some(id)
    && CommitOfPartition(db, row.partition, row.parent)
    && row.recordCount >= 0 && row.fileCount >= 0 && (row.recordCount == 0 || row.fileCount > 0)
  }

  predicate HexDigest(text: string) {
    && |text| == 64
    && forall i :: 0 <= i < |text| ==> '0' <= text[i] <= '9' || 'a' <= text[i] <= 'f'
  }

  predicate FileInsertable(files: map<(Id, int), FileRow>, commit: Id, file: FileEntry) {
    && (commit, file.number) !in files
    && (forall k :: k in files ==> (files[k].bucket, files[k].objectKey) != (file.row.bucket, file.row.objectKey))
    && file.number >= 0 && file.row.rowCount >= 0 && file.row.sizeBytes > 0 && file.row.schemaVersion > 0
    && file.row.table != "" && file.row.bucket != "" && file.row.objectKey != ""
    && HexDigest(file.row.sha256)
  }

  /** The table after inserting the files in order, or None when one of them
      violates a constraint. */
  function InsertFiles(files: map<(Id, int), FileRow>, commit: Id, entries: seq<FileEntry>)
    : Option<map<(Id, int), FileRow>>
    decreases |entries|
  {
    if entries == [] then Some(files)
    else if !FileInsertable(files, commit, entries[0]) then None
    else InsertFiles(files[(commit, entries[0].number) := entries[0].row], commit, entries[1..])
  }
}
