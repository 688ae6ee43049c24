/** Every step of the service and of both import tools keeps the invariants of
    `MetadataHistory`, so they hold in every reachable state. */
module MetadataInvariants {
  import opened Wrappers
  import opened MetadataTables
  import opened MetadataProtocol
  import opened MetadataHistory

  /* The row writes. */

  lemma NewPartitionKeepsInv(db: Tables, id: Id, row: PartitionRow)
    requires Inv(db) && PartitionInsertable(db, id, row) && row.current.None?
    ensures Inv(WithPartition(db, id, row)) && SameCommits(db, WithPartition(db, id, row))
  {
    var next := WithPartition(db, id, row);
    PartitionsAfterInsert(db, id, row);
    AttemptsOutliveChange(db, next);
    CommitsOutliveChange(db, next);
    LeasesAfterInsert(db, id, row);
    SameCommitsKeepHistory(db, next);
  }

  lemma PartitionsAfterInsert(db: Tables, id: Id, row: PartitionRow)
    requires OneLeasePerPartition(db) && IdentityUnique(db) && HeadsOk(db)
    requires PartitionInsertable(db, id, row) && row.current.None?
    ensures var next := WithPartition(db, id, row);
            OneLeasePerPartition(next) && IdentityUnique(next) && HeadsOk(next)
  {
  }

  lemma LeasesAfterInsert(db: Tables, id: Id, row: PartitionRow)
    requires LeasesOk(db) && HoldersRun(db)
    ensures LeasesOk(WithPartition(db, id, row)) && HoldersRun(WithPartition(db, id, row))
  {
  }

  /** Attempts keep their constraints while only partitions are added. */
  lemma AttemptsOutliveChange(db: Tables, next: Tables)
    requires AttemptsOk(db) && next.attempts == db.attempts
    requires db.partitions.Keys <= next.partitions.Keys && next.commits == db.commits
    ensures AttemptsOk(next)
  {
  }

  /** The commits are as before, and their attempts kept partition and success. */
  lemma CommitsOutliveChange(db: Tables, next: Tables)
    requires CommitsOk(db) && OneCommitPerAttempt(db) && SuccessIsCommitted(db)
    requires next.commits == db.commits && db.partitions.Keys <= next.partitions.Keys
    requires forall a :: a in db.attempts ==>
               && a in next.attempts && next.attempts[a].partition == db.attempts[a].partition
               && (next.attempts[a].status == Success <==> db.attempts[a].status == Success)
    requires forall a :: a in next.attempts && a !in db.attempts ==> next.attempts[a].status != Success
    ensures CommitsOk(next) && OneCommitPerAttempt(next) && SuccessIsCommitted(next)
  {
  }

  /** Only attempt and lease rows changed. */
  lemma RowsKeepInv(db: Tables, next: Tables)
    requires Inv(db)
    requires next.partitions == db.partitions && next.commits == db.commits
    requires forall a :: a in db.attempts ==>
               && a in next.attempts && next.attempts[a].partition == db.attempts[a].partition
               && (next.attempts[a].status == Success <==> db.attempts[a].status == Success)
    requires forall a :: a in next.attempts && a !in db.attempts ==> next.attempts[a].status != Success
    requires OneLeasePerPartition(next) && AttemptsOk(next) && RequestUnique(next) && LeasesOk(next) && HoldersRun(next)
    ensures Inv(next) && SameCommits(db, next)
  {
    CommitsOutliveChange(db, next);
    assert HeadsOk(next) by {
      forall p | p in next.partitions ensures CommitOfPartition(next, p, next.partitions[p].current) {
        assert CommitOfPartition(db, p, db.partitions[p].current);
      }
    }
    SameCommitsKeepHistory(db, next);
  }

  /** The row of `a` became successful, a commit for it went on top of `p`, and
      the lease of `p` may have been released. */
  ghost predicate Committing(db: Tables, next: Tables, p: Id, c: Id, a: Id) {
    && p in db.partitions && c in next.commits
    && CommitInsertable(db.(attempts := next.attempts), c, next.commits[c])
    && Appended(db, next, p, c)
    && next.commits[c].attempt == a && a in next.attempts
    && next.attempts == db.attempts[a := next.attempts[a]]
    && next.attempts[a].status == Success && next.attempts[a].partition == p && AttemptRowOk(db, next.attempts[a])
    && (forall b :: b in db.attempts && b != a ==> db.attempts[b].request != next.attempts[a].request)
    && (a in db.attempts ==> db.attempts[a].partition == p)
    && next.partitions == db.partitions[p := db.partitions[p].(current := Some(c))]
    && p in db.leases
    && (next.leases == db.leases || next.leases == db.leases[p := db.leases[p].(holder := None)])
    && (forall q :: q in next.leases && next.leases[q].holder.Some? ==> next.leases[q].holder.value.attempt != a)
  }

  lemma CommittingKeepsInv(db: Tables, next: Tables, p: Id, c: Id, a: Id)
    requires Inv(db) && Committing(db, next, p, c, a)
    ensures Inv(next)
  {
    CommittingPartitions(db, next, p, c, a);
    CommittingAttempts(db, next, p, c, a);
    CommittingCommits(db, next, p, c, a);
    CommittingLeases(db, next, p, c, a);
    AppendKeepsLinear(db, next, p, c);
  }

  lemma CommittingPartitions(db: Tables, next: Tables, p: Id, c: Id, a: Id)
    requires OneLeasePerPartition(db) && IdentityUnique(db) && HeadsOk(db)
    requires Committing(db, next, p, c, a)
    ensures OneLeasePerPartition(next) && IdentityUnique(next) && HeadsOk(next)
  {
    forall q | q in next.partitions ensures CommitOfPartition(next, q, next.partitions[q].current) {
      if q != p { assert CommitOfPartition(db, q, db.partitions[q].current); }
    }
  }

  lemma CommittingAttempts(db: Tables, next: Tables, p: Id, c: Id, a: Id)
    requires AttemptsOk(db) && RequestUnique(db)
    requires Committing(db, next, p, c, a)
    ensures AttemptsOk(next) && RequestUnique(next)
  {
    forall b | b in next.attempts ensures AttemptRowOk(next, next.attempts[b]) {
      if b != a { assert AttemptRowOk(db, db.attempts[b]); }
    }
  }

  lemma CommittingCommits(db: Tables, next: Tables, p: Id, c: Id, a: Id)
    requires CommitsOk(db) && OneCommitPerAttempt(db) && SuccessIsCommitted(db)
    requires Committing(db, next, p, c, a)
    ensures CommitsOk(next) && OneCommitPerAttempt(next) && SuccessIsCommitted(next)
  {
    forall d | d in next.commits ensures CommitRowOk(next, next.commits[d]) {
      if d != c { assert CommitRowOk(db, db.commits[d]); }
    }
    forall b | b in next.attempts ensures next.attempts[b].status == Success <==> Committed(next, b) {
      if b == a {
        assert next.commits[c].attempt == a;
      } else if Committed(db, b) {
        var d :| d in db.commits && db.commits[d].attempt == b;
        assert d in next.commits && next.commits[d].attempt == b;
      } else {
        assert !Committed(next, b);
      }
    }
  }

  lemma CommittingLeases(db: Tables, next: Tables, p: Id, c: Id, a: Id)
    requires LeasesOk(db) && HoldersRun(db)
    requires Committing(db, next, p, c, a)
    ensures LeasesOk(next) && HoldersRun(next)
  {
    forall q | q in next.leases ensures LeaseRowOk(next, q, next.leases[q]) {
      assert LeaseRowOk(db, q, db.leases[q]);
    }
  }

  lemma LocatedKeepsInv(db: Tables, identity: Identity, newPartition: Id, createdAt: int)
    requires Inv(db)
    ensures var located := Located(db, identity, newPartition, createdAt);
            located.Some? ==>
              var (p, db1) := located.value;
              && Inv(db1) && SameCommits(db, db1) && p in db1.partitions
  {
    var located := Located(db, identity, newPartition, createdAt);
    if located.Some? && FindPartition(db, identity).None? {
      NewPartitionKeepsInv(db, newPartition, PartitionRow(identity, None, createdAt));
    }
  }

  /* The steps. */

  lemma BeginKeepsInv(db: Tables, s: Step)
    requires Inv(db) && s.Begin?
    ensures Inv(BeginStep(db, s).0) && SameCommits(db, BeginStep(db, s).0)
  {
    LocatedKeepsInv(db, s.identity, s.newPartition, s.now);
    if BeginStep(db, s).1.Claimed? {
      var (p, db1) := Located(db, s.identity, s.newPartition, s.now).value;
      ClaimKeepsInv(db1, BeginStep(db, s).0, p, s);
    }
  }

  /** The attempt and lease rows of a granted claim. */
  lemma ClaimKeepsInv(db: Tables, next: Tables, p: Id, s: Step)
    requires Inv(db) && s.Begin? && p in db.partitions && s.duration > 0
    requires var lease := ClaimedLease(LeaseOf(db, p), s);
             var row := BegunAttempt(db, p, lease.generation, s);
             && AttemptInsertable(db, s.newAttempt, row)
             && next == WithLease(WithAttempt(db, s.newAttempt, row), p, lease)
    ensures Inv(next) && SameCommits(db, next)
  {
    assert AttemptsOk(next) by {
      forall a | a in next.attempts ensures AttemptRowOk(next, next.attempts[a]) {
        if a != s.newAttempt { assert AttemptRowOk(db, db.attempts[a]); }
      }
    }
    ClaimedLeasesOk(db, next, p, s);
    RowsKeepInv(db, next);
  }

  lemma ClaimedLeasesOk(db: Tables, next: Tables, p: Id, s: Step)
    requires LeasesOk(db) && HoldersRun(db) && s.Begin? && p in db.leases && s.duration > 0
    requires var lease := ClaimedLease(LeaseOf(db, p), s);
             var row := BegunAttempt(db, p, lease.generation, s);
             && s.newAttempt !in db.attempts
             && next == WithLease(WithAttempt(db, s.newAttempt, row), p, lease)
    ensures LeasesOk(next) && HoldersRun(next)
  {
  }

  lemma RenewKeepsInv(db: Tables, s: Step)
    requires Inv(db) && s.Renew?
    ensures Inv(RenewStep(db, s).0) && SameCommits(db, RenewStep(db, s).0)
  {
    if RenewStep(db, s).1.Renewed? {
      var next := RenewStep(db, s).0;
      AttemptsOutliveChange(db, next);
      RenewedLeasesOk(db, s);
      RowsKeepInv(db, next);
    }
  }

  lemma RenewedLeasesOk(db: Tables, s: Step)
    requires LeasesOk(db) && HoldersRun(db) && s.Renew? && RenewStep(db, s).1.Renewed?
    ensures LeasesOk(RenewStep(db, s).0) && HoldersRun(RenewStep(db, s).0)
  {
  }

  lemma FailKeepsInv(db: Tables, s: Step)
    requires Inv(db) && s.Fail?
    ensures Inv(FailStep(db, s).0) && SameCommits(db, FailStep(db, s).0)
  {
    if FailStep(db, s).1.Released? {
      FailedAttemptsOk(db, s);
      FailedLeasesOk(db, s);
      RowsKeepInv(db, FailStep(db, s).0);
    }
  }

  lemma FailedAttemptsOk(db: Tables, s: Step)
    requires AttemptsOk(db) && RequestUnique(db) && s.Fail? && FailStep(db, s).1.Released?
    ensures AttemptsOk(FailStep(db, s).0) && RequestUnique(FailStep(db, s).0)
  {
    var next := FailStep(db, s).0;
    forall a | a in next.attempts ensures AttemptRowOk(next, next.attempts[a]) {
      assert AttemptRowOk(db, db.attempts[a]);
    }
  }

  lemma FailedLeasesOk(db: Tables, s: Step)
    requires LeasesOk(db) && HoldersRun(db) && s.Fail? && FailStep(db, s).1.Released?
    ensures LeasesOk(FailStep(db, s).0) && HoldersRun(FailStep(db, s).0)
  {
    var next := FailStep(db, s).0;
    forall q | q in next.leases ensures LeaseRowOk(next, q, next.leases[q]) {
      assert LeaseRowOk(db, q, db.leases[q]);
    }
    forall q | q in next.leases && next.leases[q].holder.Some? ensures next.leases[q].holder.value.attempt != s.attempt {
      assert LeaseRowOk(db, q, db.leases[q]);
    }
  }

  lemma PublishKeepsInv(db: Tables, s: Step)
    requires Inv(db) && s.Publish?
    ensures Inv(PublishStep(db, s).0)
    ensures PublishStep(db, s).1.Published? ==>
              Appended(db, PublishStep(db, s).0, PublishStep(db, s).1.partition, s.newCommit) && PublishStep(db, s).1.partition == db.attempts[s.attempt].partition
    ensures !PublishStep(db, s).1.Published? ==> PublishStep(db, s).0 == db
  {
    if PublishStep(db, s).1.Published? {
      PublishCommits(db, s);
      CommittingKeepsInv(db, PublishStep(db, s).0, db.attempts[s.attempt].partition, s.newCommit, s.attempt);
    }
  }

  lemma PublishCommits(db: Tables, s: Step)
    requires OneLeasePerPartition(db) && AttemptsOk(db) && RequestUnique(db) && LeasesOk(db)
    requires s.Publish? && PublishStep(db, s).1.Published?
    ensures Committing(db, PublishStep(db, s).0, db.attempts[s.attempt].partition, s.newCommit, s.attempt)
  {
    var next := PublishStep(db, s).0;
    assert AttemptRowOk(db, db.attempts[s.attempt]);
    forall q | q in next.leases && next.leases[q].holder.Some? ensures next.leases[q].holder.value.attempt != s.attempt {
      assert LeaseRowOk(db, q, db.leases[q]);
    }
  }

  lemma ImportedKeepsInv(db: Tables, p: Id, a: Id, c: Id, recordCount: int, files: seq<FileEntry>, startedAt: int, completedAt: int)
    requires Inv(db) && p in db.partitions && db.partitions[p].current.None?
    ensures var imported := ImportedDay(db, p, a, c, recordCount, files, startedAt, completedAt);
            imported.Some? ==> Inv(imported.value) && Appended(db, imported.value, p, c)
  {
    var imported := ImportedDay(db, p, a, c, recordCount, files, startedAt, completedAt);
    if imported.Some? {
      ImportCommits(db, p, a, c, recordCount, files, startedAt, completedAt);
      CommittingKeepsInv(db, imported.value, p, c, a);
    }
  }

  lemma ImportCommits(db: Tables, p: Id, a: Id, c: Id, recordCount: int, files: seq<FileEntry>, startedAt: int, completedAt: int)
    requires OneLeasePerPartition(db) && LeasesOk(db) && p in db.partitions && db.partitions[p].current.None?
    requires ImportedDay(db, p, a, c, recordCount, files, startedAt, completedAt).Some?
    ensures var next := ImportedDay(db, p, a, c, recordCount, files, startedAt, completedAt).value;
            Committing(db, next, p, c, a)
  {
    var next := ImportedDay(db, p, a, c, recordCount, files, startedAt, completedAt).value;
    forall q | q in next.leases && next.leases[q].holder.Some? ensures next.leases[q].holder.value.attempt != a {
      assert LeaseRowOk(db, q, db.leases[q]);
    }
  }

  lemma AppendedAfterLocated(db: Tables, db1: Tables, next: Tables, p: Id, c: Id)
    requires SameCommits(db, db1) && Appended(db1, next, p, c) && p in db1.partitions
    ensures Appended(db, next, p, c)
  {}

  lemma ImportKeepsInv(db: Tables, s: Step)
    requires Inv(db) && Imports(s)
    ensures Inv(ImportStep(db, s).0)
    ensures ImportStep(db, s).1.Imported? ==> Appended(db, ImportStep(db, s).0, ImportStep(db, s).1.partition, s.newCommit)
    ensures !ImportStep(db, s).1.Imported? ==> ImportStep(db, s).0 == db
  {
    if ImportStep(db, s).1.Imported? {
      LocatedKeepsInv(db, s.identity, s.newPartition, StartOf(s));
      var (p, db1) := Located(db, s.identity, s.newPartition, StartOf(s)).value;
      ImportedKeepsInv(db1, p, s.newAttempt, s.newCommit, s.recordCount, s.files, StartOf(s), EndOf(s));
      AppendedAfterLocated(db, db1, ImportStep(db, s).0, p, s.newCommit);
    }
  }

  lemma StepKeepsInv(db: Tables, s: Step)
    requires Inv(db)
    ensures Inv(Next(db, s))
    ensures StepEffect(db, s)
  {
    if s.Begin? {
      BeginKeepsInv(db, s);
    } else if s.Renew? {
      RenewKeepsInv(db, s);
    } else if s.Fail? {
      FailKeepsInv(db, s);
    } else if s.Publish? {
      PublishKeepsInv(db, s);
    } else {
      ImportKeepsInv(db, s);
    }
  }

  /** A step adds a commit on top of the head exactly when it says so. */
  ghost predicate StepEffect(db: Tables, s: Step) {
    var reply := ReplyTo(db, s);
    if reply.Published? || reply.Imported? then Appended(db, Next(db, s), reply.partition, reply.commit)
    else SameCommits(db, Next(db, s))
  }

  lemma {:induction false} RunKeepsInv(db: Tables, steps: seq<Step>)
    requires Inv(db)
    ensures Inv(Run(db, steps))
    decreases |steps|
  {
    if steps != [] {
      StepKeepsInv(db, steps[0]);
      RunKeepsInv(Next(db, steps[0]), steps[1..]);
    }
  }

  lemma ReachableInv(steps: seq<Step>)
    ensures Inv(Run(EMPTY, steps))
  {
    RunKeepsInv(EMPTY, steps);
  }
}
