/** The metadata service and the two import tools as the source runs them: row by
    row inside one transaction, undone when a check or a constraint fails. Each
    public method is proved equal to its atomic step in `MetadataProtocol`. */
module MetadataService {
  import opened Wrappers
  import opened MetadataTables
  import opened MetadataProtocol
  import opened MetadataHistory
  import opened MetadataInvariants

  class Service {
    var db: Tables

    ghost predicate Valid()
      reads this
    {
      Inv(db) == true
    }

    constructor ()
      ensures Valid() && db == EMPTY
    {
      db := EMPTY;
    }

    /* Row access, as in leases.py, attempts.py and commits.py. */

    method AttemptByRequest(request: Id) returns (found: Option<Id>)
      requires RequestUnique(db)
      ensures found == FindRequest(db, request)
    {
      if a :| a in db.attempts && db.attempts[a].request == request {
        found := Some(a);
      } else {
        found := None;
      }
    }

    method PartitionByIdentity(identity: Identity) returns (found: Option<Id>)
      requires IdentityUnique(db)
      ensures found == FindPartition(db, identity)
    {
      if p :| p in db.partitions && db.partitions[p].identity == identity {
        found := Some(p);
      } else {
        found := None;
      }
    }

    /** The partition row, created with its lease row when it is missing. */
    method LookUpOrCreate(identity: Identity, newPartition: Id, createdAt: int) returns (p: Option<Id>)
      requires IdentityUnique(db)
      modifies this
      ensures var located := Located(old(db), identity, newPartition, createdAt);
              if located.None? then p.None? && db == old(db) else p == Some(located.value.0) && db == located.value.1
    {
      p := PartitionByIdentity(identity);
      if p.None? {
        var row := PartitionRow(identity, None, createdAt);
        if PartitionInsertable(db, newPartition, row) {
          db := db.(partitions := db.partitions[newPartition := row]);
          db := db.(leases := db.leases[newPartition := LeaseRow(0, None)]);
          p := Some(newPartition);
        }
      }
    }

    method LockAndClaimLease(p: Id, attempt: Id, owner: Id, duration: int, now: int) returns (lease: Option<LeaseRow>)
      ensures lease == if Conflicts(LeaseOf(db, p), attempt, owner, now) then None
                       else Some(LeaseRow(LeaseOf(db, p).generation + 1, Some(Holder(attempt, owner, now, now + duration))))
    {
      var generation := 0;
      if p in db.leases {
        var row := db.leases[p];
        generation := row.generation;
        if row.holder.Some? && row.holder.value.expires > now
           && (row.holder.value.owner != owner || row.holder.value.attempt != attempt) {
          return None;
        }
      }
      return Some(LeaseRow(generation + 1, Some(Holder(attempt, owner, now, now + duration))));
    }

    method InsertAttempt(id: Id, row: AttemptRow) returns (ok: bool)
      modifies this
      ensures ok == AttemptInsertable(old(db), id, row)
      ensures db == if ok then WithAttempt(old(db), id, row) else old(db)
    {
      ok := AttemptInsertable(db, id, row);
      if ok {
        db := db.(attempts := db.attempts[id := row]);
      }
    }

    /** Write the holder; the table only checks that the lease ends after it begins. */
    method WriteLease(p: Id, lease: LeaseRow) returns (ok: bool)
      modifies this
      ensures ok == (lease.holder.Some? ==> lease.holder.value.expires > lease.holder.value.heartbeat)
      ensures db == if ok then WithLease(old(db), p, lease) else old(db)
    {
      ok := lease.holder.None? || lease.holder.value.expires > lease.holder.value.heartbeat;
      if ok {
        db := db.(leases := db.leases[p := lease]);
      }
    }

    method ReleaseLease(p: Id)
      requires p in db.leases
      modifies this
      ensures db == WithoutHolder(old(db), p)
    {
      db := db.(leases := db.leases[p := LeaseRow(db.leases[p].generation, None)]);
    }

    /** Insert a commit and its files, one row after the other. */
    method InsertCommit(id: Id, row: CommitRow, files: seq<FileEntry>) returns (ok: bool)
      modifies this
      ensures ok == AppendCommit(old(db), id, row, files).Some?
      ensures ok ==> row.partition in db.partitions
                     && WithCurrent(db, row.partition, id) == AppendCommit(old(db), id, row, files).value
                     && db.attempts == old(db).attempts && db.leases == old(db).leases && db.partitions == old(db).partitions
    {
      ok := CommitInsertable(db, id, row);
      if !ok { return; }
      db := db.(commits := db.commits[id := row]);
      var i := 0;
      while i < |files| && ok
        invariant 0 <= i <= |files|
        invariant db == old(db).(commits := old(db).commits[id := row], files := db.files)
        invariant ok ==> InsertFiles(old(db).files, id, files) == InsertFiles(db.files, id, files[i..])
        invariant !ok ==> InsertFiles(old(db).files, id, files).None?
        decreases |files| - i, ok
      {
        ok := FileInsertable(db.files, id, files[i]);
        if ok {
          db := db.(files := db.files[(id, files[i].number) := files[i].row]);
          i := i + 1;
        }
      }
    }

    method SetCurrent(p: Id, commit: Id)
      requires p in db.partitions
      modifies this
      ensures db == WithCurrent(old(db), p, commit)
    {
      db := db.(partitions := db.partitions[p := PartitionRow(db.partitions[p].identity, Some(commit), db.partitions[p].createdAt)]);
    }

    /** Claim the lease of a partition for a new attempt. */
    method ClaimFor(p: Id, s: Step) returns (reply: Reply)
      requires s.Begin?
      modifies this
      ensures var lease := ClaimedLease(LeaseOf(old(db), p), s);
              var row := BegunAttempt(old(db), p, lease.generation, s);
              if Conflicts(LeaseOf(old(db), p), s.newAttempt, s.owner, s.now) then reply == Rejected(LeaseConflict)
              else if !AttemptInsertable(old(db), s.newAttempt, row) || s.duration <= 0 then reply == Rejected(ConstraintViolation)
              else reply == Claimed(p, s.newAttempt, lease) && db == WithLease(WithAttempt(old(db), s.newAttempt, row), p, lease)
    {
      var current := if p in db.partitions then db.partitions[p].current else None;
      var lease := LockAndClaimLease(p, s.newAttempt, s.owner, s.duration, s.now);
      if lease.None? {
        return Rejected(LeaseConflict);
      }
      var row := AttemptRow(p, s.request, s.kind, Running, s.owner, lease.value.generation, current, s.now, None);
      var ok := InsertAttempt(s.newAttempt, row);
      if ok {
        ok := WriteLease(p, lease.value);
      }
      if !ok {
        return Rejected(ConstraintViolation);
      }
      return Claimed(p, s.newAttempt, lease.value);
    }

    /* The transactions. */

    method BeginOrReuse(s: Step) returns (reply: Reply)
      requires Valid() && s.Begin?
      modifies this
      ensures Valid() && (db, reply) == BeginStep(old(db), s)
    {
      BeginKeepsInv(db, s);
      var before := db;
      var replayed := AttemptByRequest(s.request);
      if replayed.Some? {
        var a := replayed.value;
        var located := PartitionByIdentity(s.identity);
        var answer := db.attempts[a].base;
        if db.attempts[a].status == Success && located.Some? && db.partitions[located.value].current.Some? {
          answer := db.partitions[located.value].current;
        }
        return Replayed(a, db.attempts[a].status == Success, located, answer);
      }
      var p := LookUpOrCreate(s.identity, s.newPartition, s.now);
      if p.None? {
        return Rejected(ConstraintViolation);
      }
      var current := db.partitions[p.value].current;
      if !s.refresh && current.Some? {
        var inProgress := p.value in db.leases && db.leases[p.value].holder.Some?
                          && db.leases[p.value].holder.value.expires > s.now;
        return Reused(p.value, current.value, inProgress);
      }
      reply := ClaimFor(p.value, s);
      if reply.Rejected? {
        db := before;
      }
    }

    method ResolveRequest(request: Id) returns (reply: Option<Reply>)
      requires Valid()
      ensures reply == Resolve(db, request)
    {
      var found := AttemptByRequest(request);
      if found.None? {
        return None;
      }
      var row := db.attempts[found.value];
      return Some(Replayed(found.value, row.status == Success, Some(row.partition), CurrentOf(db, Some(row.partition))));
    }

    method RenewLease(s: Step) returns (reply: Reply)
      requires Valid() && s.Renew?
      modifies this
      ensures Valid() && (db, reply) == RenewStep(old(db), s)
    {
      RenewKeepsInv(db, s);
      if s.attempt !in db.attempts {
        return Rejected(AttemptNotFound);
      }
      var p := db.attempts[s.attempt].partition;
      if p !in db.leases || db.leases[p].holder.None? || db.leases[p].holder.value.attempt != s.attempt {
        return Rejected(LeaseLost);
      }
      var row := db.leases[p];
      if row.holder.value.owner != s.owner {
        return Rejected(LeaseLost);
      }
      if row.generation != s.generation {
        return Rejected(StaleGeneration);
      }
      if row.holder.value.expires <= s.now {
        return Rejected(LeaseLost);
      }
      var lease := LeaseRow(row.generation, Some(Holder(s.attempt, s.owner, s.now, s.now + s.duration)));
      var ok := WriteLease(p, lease);
      if !ok {
        return Rejected(ConstraintViolation);
      }
      return Renewed(lease);
    }

    method PublishCommit(s: Step) returns (reply: Reply)
      requires Valid() && s.Publish?
      modifies this
      ensures Valid() && (db, reply) == PublishStep(old(db), s)
    {
      PublishKeepsInv(db, s);
      var before := db;
      if s.attempt !in db.attempts {
        return Rejected(AttemptNotFound);
      }
      var att := db.attempts[s.attempt];
      if att.status != Running {
        return Rejected(InvalidAttemptState);
      }
      var p := att.partition;
      if p !in db.leases || db.leases[p].holder.None? || db.leases[p].holder.value.attempt != s.attempt
         || db.leases[p].holder.value.owner != s.owner {
        return Rejected(LeaseLost);
      }
      if db.leases[p].generation != s.generation {
        return Rejected(StaleGeneration);
      }
      if db.leases[p].holder.value.expires <= s.now {
        return Rejected(LeaseLost);
      }
      assert AttemptRowOk(db, att);
      if db.partitions[p].current != s.expectedBase {
        return Rejected(BaseCommitMismatch);
      }
      var ok := InsertCommit(s.newCommit, CommitRow(p, s.attempt, s.expectedBase, s.recordCount, |s.files|, s.now), s.files);
      if !ok || s.now < att.startedAt {
        db := before;
        return Rejected(ConstraintViolation);
      }
      db := db.(attempts := db.attempts[s.attempt := att.(status := Success, completedAt := Some(s.now))]);
      SetCurrent(p, s.newCommit);
      ReleaseLease(p);
      return Published(p, s.newCommit);
    }

    method FailAttempt(s: Step) returns (reply: Reply)
      requires Valid() && s.Fail?
      modifies this
      ensures Valid() && (db, reply) == FailStep(old(db), s)
    {
      FailKeepsInv(db, s);
      var before := db;
      if s.attempt !in db.attempts {
        return Rejected(AttemptNotFound);
      }
      var att := db.attempts[s.attempt];
      if att.status == Success {
        return Rejected(InvalidAttemptState);
      }
      if att.status != Running {
        return Ignored;
      }
      var p := att.partition;
      if p in db.leases && db.leases[p].holder.Some? && db.leases[p].holder.value.attempt == s.attempt {
        if db.leases[p].holder.value.owner != s.owner || db.leases[p].generation != s.generation {
          return Rejected(LeaseLost);
        }
        ReleaseLease(p);
      }
      if s.now < att.startedAt {
        db := before;
        return Rejected(ConstraintViolation);
      }
      var status := if s.canceled then Canceled else Failed;
      db := db.(attempts := db.attempts[s.attempt := att.(status := status, completedAt := Some(s.now))]);
      return Released;
    }

    /** `_publish_day`, and the per-day body of `import_resource_manifests`. */
    method ImportDay(s: Step) returns (reply: Reply)
      requires Valid() && Imports(s)
      modifies this
      ensures Valid() && (db, reply) == ImportStep(old(db), s)
    {
      ImportKeepsInv(db, s);
      var before := db;
      var found := PartitionByIdentity(s.identity);
      if found.Some? && db.partitions[found.value].current.Some? {
        return Skipped;
      }
      if s.PublishDay? && found.Some? && (found.value !in db.leases || db.leases[found.value].holder.Some?) {
        return Rejected(ImportRefused);
      }
      var p := LookUpOrCreate(s.identity, s.newPartition, StartOf(s));
      if p.None? {
        return Rejected(ConstraintViolation);
      }
      var ok := InsertAttempt(s.newAttempt, AttemptRow(p.value, s.newAttempt, "import", Success, s.newAttempt, 1, None,
                                                       StartOf(s), Some(EndOf(s))));
      if ok {
        ok := InsertCommit(s.newCommit, CommitRow(p.value, s.newAttempt, None, s.recordCount, |s.files|, EndOf(s)), s.files);
      }
      if !ok {
        db := before;
        return Rejected(ConstraintViolation);
      }
      SetCurrent(p.value, s.newCommit);
      return Imported(p.value, s.newCommit);
    }

    /** `import_resource_manifests`: all its days in one transaction, undone when one of them
        is refused. */
    method ImportDays(steps: seq<Step>) returns (ok: bool)
      requires Valid() && forall i :: 0 <= i < |steps| ==> steps[i].ImportManifest?
      modifies this
      ensures Valid()
      ensures ok <==> NoneRefused(old(db), steps)
      ensures db == if ok then Run(old(db), steps) else old(db)
    {
      var before := db;
      ghost var states := StatesOf(db, steps);
      ok := ImportAll(steps, states);
      if !ok {
        db := before;
      }
    }

    /** The days in turn, up to the first that is refused. */
    method ImportAll(steps: seq<Step>, ghost states: seq<Tables>) returns (ok: bool)
      requires Inv(db) == true && Leads(states, steps) && db == states[0] && forall i :: 0 <= i < |steps| ==> steps[i].ImportManifest?
      modifies this
      ensures ok ==> Inv(db) == true && db == states[|steps|]
      ensures ok <==> forall i :: 0 <= i < |steps| ==> !Refuses(states[i], steps[i])
    {
      for i := 0 to |steps|
        invariant Inv(db) == true && db == states[i]
        invariant forall j :: 0 <= j < i ==> !Refuses(states[j], steps[j])
      {
        ok := NextDay(states[i], steps[i]);
        if !ok {
          return;
        }
      }
      ok := true;
    }

    /** One more day of the transaction. */
    method NextDay(ghost before: Tables, s: Step) returns (ok: bool)
      requires Inv(db) == true && s.ImportManifest? && db == before
      modifies this
      ensures Inv(db) == true && db == Next(before, s)
      ensures ok == !Refuses(before, s)
    {
      var reply := ImportDay(s);
      ok := !reply.Rejected?;
    }
  }

  ghost predicate Refuses(db: Tables, s: Step) { ReplyTo(db, s).Rejected? }

  /** The tables before each step, and after the last. */
  ghost predicate Leads(states: seq<Tables>, steps: seq<Step>) {
    |states| == |steps| + 1 && forall i :: 0 <= i < |steps| ==> states[i + 1] == Next(states[i], steps[i])
  }

  /** No step is refused by the tables the steps before it leave. */
  ghost predicate NoneRefused(db: Tables, steps: seq<Step>) {
    forall i :: 0 <= i < |steps| ==> !Refuses(Run(db, steps[..i]), steps[i])
  }

  lemma StatesOf(db: Tables, steps: seq<Step>) returns (states: seq<Tables>)
    ensures Leads(states, steps) && states[0] == db && states[|steps|] == Run(db, steps)
    ensures NoneRefused(db, steps) <==> forall i :: 0 <= i < |steps| ==> !Refuses(states[i], steps[i])
  {
    states := seq(|steps| + 1, i requires 0 <= i < |steps| + 1 => Run(db, steps[..i]));
    forall i | 0 <= i < |steps| ensures states[i + 1] == Next(states[i], steps[i]) { RunPrefix(db, steps, i); }
    assert steps[..|steps|] == steps;
  }

  lemma {:induction false} RunPrefix(db: Tables, steps: seq<Step>, i: nat)
    requires i < |steps|
    ensures Run(db, steps[..i + 1]) == Next(Run(db, steps[..i]), steps[i])
    decreases i
  {
    if i == 0 {
      assert steps[..1][1..] == [];
    } else {
      var rest := steps[1..];
      RunPrefix(Next(db, steps[0]), rest, i - 1);
      assert steps[..i + 1][1..] == rest[..i] && steps[..i][1..] == rest[..i - 1];
    }
  }
}
