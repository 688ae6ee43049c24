/** The metadata service and the two import tools as atomic steps on the tables.
    A step that raises leaves the tables as they were. */
module MetadataProtocol {
  import opened Wrappers
  import opened MetadataTables

  datatype Failure =
    | AttemptNotFound | InvalidAttemptState | LeaseConflict | LeaseLost | StaleGeneration
    | BaseCommitMismatch | ConstraintViolation | ImportRefused

  datatype Reply =
    | Rejected(failure: Failure)
    | Replayed(attempt: Id, reused: bool, located: Option<Id>, answer: Option<Id>)
    | Reused(partition: Id, commit: Id, refreshInProgress: bool)
    | Claimed(partition: Id, attempt: Id, lease: LeaseRow)
    | Renewed(lease: LeaseRow)
    | Published(partition: Id, commit: Id)
    | Released
    | Ignored
    | Imported(partition: Id, commit: Id)
    | Skipped

  datatype Step =
    | Begin(identity: Identity, refresh: bool, request: Id, owner: Id, kind: string, duration: int,
            newPartition: Id, newAttempt: Id, now: int)
    | Renew(attempt: Id, owner: Id, generation: int, duration: int, now: int)
    | Publish(attempt: Id, owner: Id, generation: int, expectedBase: Option<Id>, recordCount: int,
              files: seq<FileEntry>, newCommit: Id, now: int)
    | Fail(attempt: Id, owner: Id, generation: int, canceled: bool, now: int)
    | PublishDay(identity: Identity, newPartition: Id, newAttempt: Id, newCommit: Id, recordCount: int,
                 files: seq<FileEntry>, now: int)
    | ImportManifest(identity: Identity, newPartition: Id, newAttempt: Id, newCommit: Id, recordCount: int,
                     files: seq<FileEntry>, startedAt: int, completedAt: int)

  /* Row lookups. */

  ghost function FindPartition(db: Tables, identity: Identity): Option<Id> {
    if p :| p in db.partitions && db.partitions[p].identity == identity then Some(p) else None
  }

  ghost function FindRequest(db: Tables, request: Id): Option<Id> {
    if a :| a in db.attempts && db.attempts[a].request == request then Some(a) else None
  }

  function CurrentOf(db: Tables, partition: Option<Id>): Option<Id> {
    if partition.Some? && partition.value in db.partitions then db.partitions[partition.value].current else None
  }

  /** Attempt `a` holds the lease of partition `p`. */
  predicate Holds(db: Tables, p: Id, a: Id) {
    p in db.leases && db.leases[p].holder.Some? && db.leases[p].holder.value.attempt == a
  }

  predicate Unexpired(db: Tables, p: Id, now: int) {
    p in db.leases && db.leases[p].holder.Some? && db.leases[p].holder.value.expires > now
  }

  /* Row writes. */

  function WithPartition(db: Tables, id: Id, row: PartitionRow): Tables {
    db.(partitions := db.partitions[id := row], leases := db.leases[id := LeaseRow(0, None)])
  }

  function WithAttempt(db: Tables, id: Id, row: AttemptRow): Tables {
    db.(attempts := db.attempts[id := row])
  }

  function WithLease(db: Tables, partition: Id, lease: LeaseRow): Tables {
    db.(leases := db.leases[partition := lease])
  }

  function WithoutHolder(db: Tables, partition: Id): Tables
    requires partition in db.leases
  {
    WithLease(db, partition, db.leases[partition].(holder := None))
  }

  function WithCurrent(db: Tables, partition: Id, commit: Id): Tables
    requires partition in db.partitions
  {
    db.(partitions := db.partitions[partition := db.partitions[partition].(current := Some(commit))])
  }

  function WithStatus(db: Tables, attempt: Id, status: AttemptStatus, now: int): Tables
    requires attempt in db.attempts
  {
    WithAttempt(db, attempt, db.attempts[attempt].(status := status, completedAt := Some(now)))
  }

  /** Insert a commit with its files and move the partition's head to it. */
  function AppendCommit(db: Tables, id: Id, row: CommitRow, files: seq<FileEntry>): Option<Tables> {
    if !CommitInsertable(db, id, row) then None
    else
      var inserted := InsertFiles(db.files, id, files);
      if inserted.None? then None
      else Some(WithCurrent(db.(commits := db.commits[id := row], files := inserted.value), row.partition, id))
  }

  /* The steps. */

  ghost function Replay(db: Tables, identity: Identity, a: Id): Reply
    requires a in db.attempts
  {
    var partition := FindPartition(db, identity);
    var base := db.attempts[a].base;
    var success := db.attempts[a].status == Success;
    var current := CurrentOf(db, partition);
    Replayed(a, success, partition, if success && current.Some? then current else base)
  }

  /** The partition row a step works on: the existing one, or a new one with its
      lease row; None when the new one violates a constraint. */
  ghost function Located(db: Tables, identity: Identity, newPartition: Id, createdAt: int): Option<(Id, Tables)> {
    var found := FindPartition(db, identity);
    var row := PartitionRow(identity, None, createdAt);
    if found.Some? then Some((found.value, db))
    else if PartitionInsertable(db, newPartition, row) then Some((newPartition, WithPartition(db, newPartition, row)))
    else None
  }

  function LeaseOf(db: Tables, p: Id): LeaseRow {
    if p in db.leases then db.leases[p] else LeaseRow(0, None)
  }

  /** The lease held by someone else and still running. */
  predicate Conflicts(lease: LeaseRow, attempt: Id, owner: Id, now: int) {
    && lease.holder.Some?
    && lease.holder.value.expires > now
    && (lease.holder.value.owner != owner || lease.holder.value.attempt != attempt)
  }

  function ClaimedLease(lease: LeaseRow, s: Step): LeaseRow
    requires s.Begin?
  {
    LeaseRow(lease.generation + 1, Some(Holder(s.newAttempt, s.owner, s.now, s.now + s.duration)))
  }

  function BegunAttempt(db: Tables, p: Id, generation: int, s: Step): AttemptRow
    requires s.Begin?
  {
    AttemptRow(p, s.request, s.kind, Running, s.owner, generation, CurrentOf(db, Some(p)), s.now, None)
  }

  /** `resolve_request`: what became of a request, from its own partition. */
  ghost function Resolve(db: Tables, request: Id): Option<Reply> {
    var found := FindRequest(db, request);
    if found.None? then None
    else
      var row := db.attempts[found.value];
      Some(Replayed(found.value, row.status == Success, Some(row.partition), CurrentOf(db, Some(row.partition))))
  }

  ghost function BeginStep(db: Tables, s: Step): (Tables, Reply)
    requires s.Begin?
  {
    var replayed := FindRequest(db, s.request);
    if replayed.Some? then (db, Replay(db, s.identity, replayed.value))
    else
      var located := Located(db, s.identity, s.newPartition, s.now);
      if located.None? then (db, Rejected(ConstraintViolation))
      else
        var (p, db1) := located.value;
        var current := CurrentOf(db1, Some(p));
        if !s.refresh && current.Some? then (db1, Reused(p, current.value, Unexpired(db1, p, s.now)))
        else if Conflicts(LeaseOf(db1, p), s.newAttempt, s.owner, s.now) then (db, Rejected(LeaseConflict))
        else
          var lease := ClaimedLease(LeaseOf(db1, p), s);
          var row := BegunAttempt(db1, p, lease.generation, s);
          if !AttemptInsertable(db1, s.newAttempt, row) || s.duration <= 0 then (db, Rejected(ConstraintViolation))
          else (WithLease(WithAttempt(db1, s.newAttempt, row), p, lease), Claimed(p, s.newAttempt, lease))
  }

  /** The fencing checks shared by renewing and publishing: None when the caller
      still owns an unexpired lease. */
  function Fence(db: Tables, p: Id, attempt: Id, owner: Id, generation: int, now: int): Option<Failure> {
    if !Holds(db, p, attempt) then Some(LeaseLost)
    else if db.leases[p].holder.value.owner != owner then Some(LeaseLost)
    else if db.leases[p].generation != generation then Some(StaleGeneration)
    else if db.leases[p].holder.value.expires <= now then Some(LeaseLost)
    else None
  }

  function RenewedLease(lease: LeaseRow, duration: int, now: int): LeaseRow
    requires lease.holder.Some?
  {
    lease.(holder := Some(lease.holder.value.(heartbeat := now, expires := now + duration)))
  }

  function RenewStep(db: Tables, s: Step): (Tables, Reply)
    requires s.Renew?
  {
    if s.attempt !in db.attempts then (db, Rejected(AttemptNotFound))
    else
      var p := db.attempts[s.attempt].partition;
      var refused := Fence(db, p, s.attempt, s.owner, s.generation, s.now);
      if refused.Some? then (db, Rejected(refused.value))
      else if s.duration <= 0 then (db, Rejected(ConstraintViolation))
      else
        var lease := RenewedLease(db.leases[p], s.duration, s.now);
        (WithLease(db, p, lease), Renewed(lease))
  }

  function PublishStep(db: Tables, s: Step): (Tables, Reply)
    requires s.Publish?
  {
    if s.attempt !in db.attempts then (db, Rejected(AttemptNotFound))
    else if db.attempts[s.attempt].status != Running then (db, Rejected(InvalidAttemptState))
    else
      var p := db.attempts[s.attempt].partition;
      var refused := Fence(db, p, s.attempt, s.owner, s.generation, s.now);
      if refused.Some? then (db, Rejected(refused.value))
      else if CurrentOf(db, Some(p)) != s.expectedBase then (db, Rejected(BaseCommitMismatch))
      else
        var row := CommitRow(p, s.attempt, s.expectedBase, s.recordCount, |s.files|, s.now);
        var appended := AppendCommit(db, s.newCommit, row, s.files);
        if appended.None? || s.now < db.attempts[s.attempt].startedAt then (db, Rejected(ConstraintViolation))
        else (WithoutHolder(WithStatus(appended.value, s.attempt, Success, s.now), p), Published(p, s.newCommit))
  }

  function FailStep(db: Tables, s: Step): (Tables, Reply)
    requires s.Fail?
  {
    if s.attempt !in db.attempts then (db, Rejected(AttemptNotFound))
    else
      var row := db.attempts[s.attempt];
      if row.status == Success then (db, Rejected(InvalidAttemptState))
      else if row.status != Running then (db, Ignored)
      else
        var mine := Holds(db, row.partition, s.attempt);
        if mine && (db.leases[row.partition].holder.value.owner != s.owner
                    || db.leases[row.partition].generation != s.generation) then (db, Rejected(LeaseLost))
        else if s.now < row.startedAt then (db, Rejected(ConstraintViolation))
        else
          var db1 := if mine then WithoutHolder(db, row.partition) else db;
          (WithStatus(db1, s.attempt, if s.canceled then Canceled else Failed, s.now), Released)
  }

  /** What both import tools write for a day: a finished attempt and its root
      commit, under generation 1, leaving the lease row alone. */
  function ImportedDay(db: Tables, p: Id, attempt: Id, commit: Id, recordCount: int, files: seq<FileEntry>,
                       startedAt: int, completedAt: int): Option<Tables>
  {
    var row := AttemptRow(p, attempt, "import", Success, attempt, 1, None, startedAt, Some(completedAt));
    if !AttemptInsertable(db, attempt, row) then None
    else AppendCommit(WithAttempt(db, attempt, row), commit,
                      CommitRow(p, attempt, None, recordCount, |files|, completedAt), files)
  }

  predicate Imports(s: Step) { s.PublishDay? || s.ImportManifest? }

  function StartOf(s: Step): int
    requires Imports(s)
  {
    if s.PublishDay? then s.now else s.startedAt
  }

  function EndOf(s: Step): int
    requires Imports(s)
  {
    if s.PublishDay? then s.now else s.completedAt
  }

  /** Both import tools skip a committed day; only `_publish_day` looks at the lease. */
  ghost function ImportStep(db: Tables, s: Step): (Tables, Reply)
    requires Imports(s)
  {
    var found := FindPartition(db, s.identity);
    if CurrentOf(db, found).Some? then (db, Skipped)
    else if s.PublishDay? && found.Some? && (found.value !in db.leases || db.leases[found.value].holder.Some?) then
      (db, Rejected(ImportRefused))
    else
      var located := Located(db, s.identity, s.newPartition, StartOf(s));
      if located.None? then (db, Rejected(ConstraintViolation))
      else
        var (p, db1) := located.value;
        var imported := ImportedDay(db1, p, s.newAttempt, s.newCommit, s.recordCount, s.files, StartOf(s), EndOf(s));
        if imported.None? then (db, Rejected(ConstraintViolation))
        else (imported.value, Imported(p, s.newCommit))
  }

  ghost function Apply(db: Tables, s: Step): (Tables, Reply) {
    match s
    case Begin(_, _, _, _, _, _, _, _, _) => BeginStep(db, s)
    case Renew(_, _, _, _, _) => RenewStep(db, s)
    case Publish(_, _, _, _, _, _, _, _) => PublishStep(db, s)
    case Fail(_, _, _, _, _) => FailStep(db, s)
    case PublishDay(_, _, _, _, _, _, _) => ImportStep(db, s)
    case ImportManifest(_, _, _, _, _, _, _, _) => ImportStep(db, s)
  }

  ghost function Next(db: Tables, s: Step): Tables { Apply(db, s).0 }

  ghost function ReplyTo(db: Tables, s: Step): Reply { Apply(db, s).1 }

  /** The tables after a whole run. */
  ghost function Run(db: Tables, steps: seq<Step>): Tables
    decreases |steps|
  {
    if steps == [] then db else Run(Next(db, steps[0]), steps[1..])
  }
}
