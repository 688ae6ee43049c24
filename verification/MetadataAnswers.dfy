/** What each request is answered and which rows it changes, in every state that satisfies
    the invariants, so in every reachable one. */
module MetadataAnswers {
  import opened Wrappers
  import opened MetadataTables
  import opened MetadataProtocol
  import opened MetadataHistory
  import opened MetadataInvariants
  import opened MetadataFiles

  /** No attempt was begun for this request. */
  ghost predicate NewRequest(db: Tables, request: Id) {
    forall a :: a in db.attempts ==> db.attempts[a].request != request
  }

  ghost predicate Known(db: Tables, x: Identity) {
    exists p :: p in db.partitions && db.partitions[p].identity == x
  }

  /** The lease of `p` is held and has not run out. */
  predicate LeaseRuns(db: Tables, p: Id, now: int) {
    p in db.leases && db.leases[p].holder.Some? && db.leases[p].holder.value.expires > now
  }

  ghost predicate Busy(db: Tables, x: Identity, now: int) {
    exists p :: p in db.partitions && db.partitions[p].identity == x && LeaseRuns(db, p, now)
  }

  /** The running lease is not that of this very attempt and owner. */
  ghost predicate BusyElse(db: Tables, x: Identity, now: int, attempt: Id, owner: Id) {
    exists p :: p in db.partitions && db.partitions[p].identity == x && LeaseRuns(db, p, now)
      && (db.leases[p].holder.value.attempt != attempt || db.leases[p].holder.value.owner != owner)
  }

  /* Beginning. */

  /** The request wants a crawl: a refresh, or a day without a commit. */
  ghost predicate WantsCrawl(db: Tables, s: Step)
    requires s.Begin?
  {
    NewRequest(db, s.request) && (s.refresh || !HasHead(db, s.identity))
  }

  /** The tables take what the request brings. */
  ghost predicate Acceptable(db: Tables, s: Step)
    requires s.Begin?
  {
    && s.newAttempt !in db.attempts && s.kind in KINDS && s.duration > 0
    && (Known(db, s.identity) || (s.newPartition !in db.partitions && s.identity.source != "" && s.identity.resource != ""))
  }

  /** The partition of the identity, created when it is unknown. */
  ghost predicate PartitionFor(db: Tables, partitions: map<Id, PartitionRow>, p: Id, x: Identity, newPartition: Id, createdAt: int) {
    if p in db.partitions then partitions == db.partitions && db.partitions[p].identity == x
    else !Known(db, x) && p == newPartition && partitions == db.partitions[p := PartitionRow(x, None, createdAt)]
  }

  function HeadOf(db: Tables, p: Id): Option<Id> { if p in db.partitions then db.partitions[p].current else None }

  function GenerationOf(db: Tables, p: Id): int { if p in db.leases then db.leases[p].generation else 0 }

  /** The new attempt runs on the head it saw, and holds the lease from now until its time is up. */
  ghost predicate Claims(db: Tables, next: Tables, s: Step, p: Id, lease: LeaseRow)
    requires s.Begin?
  {
    && PartitionFor(db, next.partitions, p, s.identity, s.newPartition, s.now)
    && lease == LeaseRow(GenerationOf(db, p) + 1, Some(Holder(s.newAttempt, s.owner, s.now, s.now + s.duration)))
    && next.leases == db.leases[p := lease]
    && next.attempts == db.attempts[s.newAttempt := AttemptRow(p, s.request, s.kind, Running, s.owner, lease.generation,
                                                               HeadOf(db, p), s.now, None)]
    && next.commits == db.commits && next.files == db.files
  }

  /** The request's own attempt, and the partition of the identity asked for now. */
  ghost predicate Replays(db: Tables, s: Step, a: Id, reused: bool, located: Option<Id>, answer: Option<Id>)
    requires s.Begin?
  {
    && a in db.attempts && db.attempts[a].request == s.request && (reused <==> db.attempts[a].status == Success)
    && (located.Some? <==> Known(db, s.identity))
    && (located.Some? ==> located.value in db.partitions && db.partitions[located.value].identity == s.identity)
    && answer == if reused && located.Some? && db.partitions[located.value].current.Some?
                 then db.partitions[located.value].current else db.attempts[a].base
  }

  /** A new request is answered with the head of its day unless it wants a refresh; else it
      claims the lease exactly when nobody's lease runs, and is refused when one does. */
  lemma BeginAnswers(db: Tables, s: Step)
    requires Inv(db) && s.Begin?
    ensures var reply := ReplyTo(db, s);
            && (reply.Replayed? <==> !NewRequest(db, s.request))
            && (reply.Reused? <==> NewRequest(db, s.request) && !WantsCrawl(db, s))
            && (reply.Claimed? <==> WantsCrawl(db, s) && !Busy(db, s.identity, s.now) && Acceptable(db, s))
            && (reply == Rejected(LeaseConflict) <==>
                  WantsCrawl(db, s) && BusyElse(db, s.identity, s.now, s.newAttempt, s.owner))
            && (reply.Rejected? ==> reply == Rejected(LeaseConflict) || reply == Rejected(ConstraintViolation))
    ensures var reply := ReplyTo(db, s);
            && (reply.Replayed? ==> Replays(db, s, reply.attempt, reply.reused, reply.located, reply.answer))
            && (reply.Reused? ==>
                  && reply.partition in db.partitions && db.partitions[reply.partition].identity == s.identity
                  && db.partitions[reply.partition].current == Some(reply.commit)
                  && reply.refreshInProgress == LeaseRuns(db, reply.partition, s.now))
            && (reply.Claimed? ==> reply.attempt == s.newAttempt && Claims(db, Next(db, s), s, reply.partition, reply.lease))
            && (!reply.Claimed? ==> Next(db, s) == db)
  {
    var found := FindPartition(db, s.identity);
    if NewRequest(db, s.request) && found.Some? {
      BeginOnKnown(db, s, found.value);
    } else if NewRequest(db, s.request) {
      BeginOnUnknown(db, s);
    }
  }

  lemma BeginOnKnown(db: Tables, s: Step, p: Id)
    requires Inv(db) && s.Begin? && NewRequest(db, s.request) && FindPartition(db, s.identity) == Some(p)
    ensures HasHead(db, s.identity) <==> db.partitions[p].current.Some?
    ensures Busy(db, s.identity, s.now) <==> LeaseRuns(db, p, s.now)
    ensures BusyElse(db, s.identity, s.now, s.newAttempt, s.owner) <==>
              LeaseRuns(db, p, s.now) && (db.leases[p].holder.value.attempt != s.newAttempt || db.leases[p].holder.value.owner != s.owner)
    ensures !s.refresh && db.partitions[p].current.Some? ==>
              BeginStep(db, s) == (db, Reused(p, db.partitions[p].current.value, LeaseRuns(db, p, s.now)))
    ensures WantsCrawl(db, s) && !LeaseRuns(db, p, s.now) && Acceptable(db, s) ==>
              BeginStep(db, s).1.Claimed? && BeginStep(db, s).1.partition == p
              && Claims(db, BeginStep(db, s).0, s, p, BeginStep(db, s).1.lease)
  {
    assert LeaseRowOk(db, p, db.leases[p]);
    assert CommitOfPartition(db, p, db.partitions[p].current);
  }

  lemma BeginOnUnknown(db: Tables, s: Step)
    requires Inv(db) && s.Begin? && NewRequest(db, s.request) && !Known(db, s.identity)
    ensures !HasHead(db, s.identity) && !Busy(db, s.identity, s.now)
    ensures Acceptable(db, s) ==>
              BeginStep(db, s).1.Claimed? && BeginStep(db, s).1.partition == s.newPartition
              && Claims(db, BeginStep(db, s).0, s, s.newPartition, BeginStep(db, s).1.lease)
    ensures !Acceptable(db, s) ==> BeginStep(db, s) == (db, Rejected(ConstraintViolation))
  {
  }

  /** A request is found by its id alone, with its own partition and that partition's head. */
  lemma ResolveAnswers(db: Tables, request: Id)
    requires Inv(db)
    ensures Resolve(db, request).None? <==> NewRequest(db, request)
    ensures Resolve(db, request).Some? ==>
              exists a :: a in db.attempts && db.attempts[a].request == request && db.attempts[a].partition in db.partitions
                && Resolve(db, request).value == Replayed(a, db.attempts[a].status == Success, Some(db.attempts[a].partition),
                                                          db.partitions[db.attempts[a].partition].current)
  {
    var found := FindRequest(db, request);
    if found.Some? { assert AttemptRowOk(db, db.attempts[found.value]); }
  }

  /* Renewing, publishing and failing. */

  /** The attempt holds the lease of its partition. */
  predicate HasLease(db: Tables, a: Id) {
    && a in db.attempts && db.attempts[a].partition in db.leases
    && db.leases[db.attempts[a].partition].holder.Some?
    && db.leases[db.attempts[a].partition].holder.value.attempt == a
  }

  predicate HasRunningLease(db: Tables, a: Id, now: int) {
    HasLease(db, a) && db.leases[db.attempts[a].partition].holder.value.expires > now
  }

  /** The caller holds the lease and it still runs. The attempt row itself says who owns
      the attempt and under which generation. */
  predicate Owner(db: Tables, a: Id, owner: Id, generation: int, now: int) {
    HasRunningLease(db, a, now) && db.attempts[a].owner == owner && db.attempts[a].generation == generation
  }

  /** The owner holds the lease, but calls under another generation. */
  predicate Stale(db: Tables, a: Id, owner: Id, generation: int) {
    HasLease(db, a) && db.attempts[a].owner == owner && db.attempts[a].generation != generation
  }

  lemma FenceMeaning(db: Tables, a: Id, owner: Id, generation: int, now: int)
    requires LeasesOk(db) && a in db.attempts
    ensures Fence(db, db.attempts[a].partition, a, owner, generation, now)
            == if Owner(db, a, owner, generation, now) then None
               else if Stale(db, a, owner, generation) then Some(StaleGeneration) else Some(LeaseLost)
  {
    if HasLease(db, a) { assert LeaseRowOk(db, db.attempts[a].partition, db.leases[db.attempts[a].partition]); }
  }

  /** A renewal succeeds exactly for the owner of a lease that still runs; it moves the end
      of that lease and nothing else. */
  lemma RenewAnswers(db: Tables, s: Step)
    requires Inv(db) && s.Renew?
    ensures var reply, known := ReplyTo(db, s), s.attempt in db.attempts;
            var owner, stale := Owner(db, s.attempt, s.owner, s.generation, s.now), Stale(db, s.attempt, s.owner, s.generation);
            && (reply.Renewed? <==> owner && s.duration > 0)
            && (reply == Rejected(AttemptNotFound) <==> !known)
            && (reply == Rejected(StaleGeneration) <==> stale)
            && (reply == Rejected(LeaseLost) <==> known && !owner && !stale)
            && (reply == Rejected(ConstraintViolation) <==> owner && s.duration <= 0)
    ensures var reply, next := ReplyTo(db, s), Next(db, s);
            if !reply.Renewed? then next == db
            else
              var p := db.attempts[s.attempt].partition;
              && reply.lease == LeaseRow(s.generation, Some(Holder(s.attempt, s.owner, s.now, s.now + s.duration)))
              && next == db.(leases := db.leases[p := reply.lease])
  {
    if s.attempt in db.attempts { FenceMeaning(db, s.attempt, s.owner, s.generation, s.now); }
    if HasLease(db, s.attempt) {
      assert LeaseRowOk(db, db.attempts[s.attempt].partition, db.leases[db.attempts[s.attempt].partition]);
    }
  }

  /** The tables take the commit and its files. */
  ghost predicate TakesCommit(db: Tables, commit: Id, recordCount: int, files: seq<FileEntry>) {
    commit !in db.commits && recordCount >= 0 && (recordCount == 0 || files != []) && Storable(db.files, commit, files)
  }

  /** The new head of `p`, built on its old one, with its files; the attempt is done. The
      lease is free, under the generation it had. */
  ghost predicate PublishedRows(db: Tables, next: Tables, s: Step, p: Id)
    requires s.Publish? && s.attempt in db.attempts && p in db.partitions
  {
    && next.partitions == db.partitions[p := db.partitions[p].(current := Some(s.newCommit))]
    && next.leases == db.leases[p := LeaseRow(s.generation, None)]
    && next.attempts == db.attempts[s.attempt := db.attempts[s.attempt].(status := Success, completedAt := Some(s.now))]
    && next.commits == db.commits[s.newCommit := CommitRow(p, s.attempt, db.partitions[p].current, s.recordCount, |s.files|, s.now)]
    && Added(db.files, next.files, s.newCommit, s.files)
  }

  /** A publication succeeds exactly for the owner of a lease that still runs, on the head
      it names, with a commit the tables take. */
  lemma PublishAnswers(db: Tables, s: Step)
    requires Inv(db) && s.Publish?
    ensures var reply, known := ReplyTo(db, s), s.attempt in db.attempts;
            var owner, stale := Owner(db, s.attempt, s.owner, s.generation, s.now), Stale(db, s.attempt, s.owner, s.generation);
            var onHead := owner && HeadOf(db, db.attempts[s.attempt].partition) == s.expectedBase;
            var taken := onHead && TakesCommit(db, s.newCommit, s.recordCount, s.files) && db.attempts[s.attempt].startedAt <= s.now;
            && (reply.Published? <==> taken)
            && (reply == Rejected(AttemptNotFound) <==> !known)
            && (reply == Rejected(InvalidAttemptState) <==> known && db.attempts[s.attempt].status != Running)
            && (reply == Rejected(StaleGeneration) <==> stale)
            && (reply == Rejected(LeaseLost) <==> known && db.attempts[s.attempt].status == Running && !owner && !stale)
            && (reply == Rejected(BaseCommitMismatch) <==> owner && !onHead)
            && (reply == Rejected(ConstraintViolation) <==> onHead && !taken)
    ensures var reply, next := ReplyTo(db, s), Next(db, s);
            if !reply.Published? then next == db
            else
              var p := db.attempts[s.attempt].partition;
              reply == Published(p, s.newCommit) && p in db.partitions && PublishedRows(db, next, s, p)
  {
    if s.attempt in db.attempts {
      FenceMeaning(db, s.attempt, s.owner, s.generation, s.now);
      assert AttemptRowOk(db, db.attempts[s.attempt]);
      var p := db.attempts[s.attempt].partition;
      if HasLease(db, s.attempt) { assert LeaseRowOk(db, p, db.leases[p]); }
      if Owner(db, s.attempt, s.owner, s.generation, s.now) && HeadOf(db, p) == s.expectedBase { PublishOnHead(db, s, p); }
    }
  }

  lemma PublishOnHead(db: Tables, s: Step, p: Id)
    requires Inv(db) && s.Publish? && Owner(db, s.attempt, s.owner, s.generation, s.now)
    requires p == db.attempts[s.attempt].partition && p in db.partitions && db.partitions[p].current == s.expectedBase
    ensures var row := CommitRow(p, s.attempt, s.expectedBase, s.recordCount, |s.files|, s.now);
            AppendCommit(db, s.newCommit, row, s.files).Some? <==> TakesCommit(db, s.newCommit, s.recordCount, s.files)
    ensures PublishStep(db, s).1.Published? ==> PublishedRows(db, PublishStep(db, s).0, s, p)
  {
    InsertsExactly(db.files, s.newCommit, s.files);
    assert CommitOfPartition(db, p, db.partitions[p].current);
    assert LeaseRowOk(db, p, db.leases[p]);
    assert !Committed(db, s.attempt);
  }

  /** Giving up ends a running attempt and frees its lease, unless a caller that is not its
      owner holds that lease; a finished attempt stays as it is. */
  lemma FailAnswers(db: Tables, s: Step)
    requires Inv(db) && s.Fail?
    ensures var reply, known := ReplyTo(db, s), s.attempt in db.attempts;
            var running := known && db.attempts[s.attempt].status == Running;
            var other := HasLease(db, s.attempt) && (db.attempts[s.attempt].owner != s.owner || db.attempts[s.attempt].generation != s.generation);
            && (reply.Released? <==> running && !other && db.attempts[s.attempt].startedAt <= s.now)
            && (reply == Rejected(AttemptNotFound) <==> !known)
            && (reply == Rejected(InvalidAttemptState) <==> known && db.attempts[s.attempt].status == Success)
            && (reply.Ignored? <==> known && !running && db.attempts[s.attempt].status != Success)
            && (reply == Rejected(LeaseLost) <==> other)
            && (reply == Rejected(ConstraintViolation) <==> running && !other && s.now < db.attempts[s.attempt].startedAt)
    ensures var reply, next := ReplyTo(db, s), Next(db, s);
            if !reply.Released? then next == db
            else
              var p, row := db.attempts[s.attempt].partition, db.attempts[s.attempt];
              && next.attempts == db.attempts[s.attempt := row.(status := if s.canceled then Canceled else Failed, completedAt := Some(s.now))]
              && next.leases == (if HasLease(db, s.attempt) then db.leases[p := LeaseRow(row.generation, None)] else db.leases)
              && next.partitions == db.partitions && next.commits == db.commits && next.files == db.files
  {
    if HasLease(db, s.attempt) {
      assert LeaseRowOk(db, db.attempts[s.attempt].partition, db.leases[db.attempts[s.attempt].partition]);
    }
  }

  /* Importing. */

  /** Somebody holds the lease of the day, whether or not it has run out. */
  ghost predicate Held(db: Tables, x: Identity) {
    exists p :: p in db.partitions && db.partitions[p].identity == x && p in db.leases && db.leases[p].holder.Some?
  }

  ghost predicate TakesDay(db: Tables, s: Step, startedAt: int, completedAt: int)
    requires Imports(s)
  {
    && s.newAttempt !in db.attempts && NewRequest(db, s.newAttempt) && startedAt <= completedAt
    && TakesCommit(db, s.newCommit, s.recordCount, s.files)
    && (Known(db, s.identity) || (s.newPartition !in db.partitions && s.identity.source != "" && s.identity.resource != ""))
  }

  /** The day has its first commit, with its files, by a finished attempt of its own; no
      lease was taken. */
  ghost predicate ImportedRows(db: Tables, next: Tables, s: Step, p: Id, startedAt: int, completedAt: int)
    requires Imports(s)
  {
    && (if p in db.partitions then db.partitions[p].identity == s.identity && next.leases == db.leases
        else !Known(db, s.identity) && p == s.newPartition && next.leases == db.leases[p := LeaseRow(0, None)])
    && next.partitions == db.partitions[p := PartitionRow(s.identity, Some(s.newCommit),
                                                          if p in db.partitions then db.partitions[p].createdAt else startedAt)]
    && next.attempts == db.attempts[s.newAttempt := AttemptRow(p, s.newAttempt, "import", Success, s.newAttempt, 1, None,
                                                               startedAt, Some(completedAt))]
    && next.commits == db.commits[s.newCommit := CommitRow(p, s.newAttempt, None, s.recordCount, |s.files|, completedAt)]
    && Added(db.files, next.files, s.newCommit, s.files)
  }

  /** A day with a commit is skipped; publishing a day that somebody holds is refused, while
      migrating its manifest is not; any other day is imported if the tables take it. */
  lemma ImportAnswers(db: Tables, s: Step)
    requires Inv(db) && Imports(s)
    ensures var startedAt, completedAt := if s.PublishDay? then s.now else s.startedAt, if s.PublishDay? then s.now else s.completedAt;
            var reply, next := ReplyTo(db, s), Next(db, s);
            var refused := !HasHead(db, s.identity) && s.PublishDay? && Held(db, s.identity);
            var taken := !HasHead(db, s.identity) && !refused && TakesDay(db, s, startedAt, completedAt);
            && (reply.Skipped? <==> HasHead(db, s.identity))
            && (reply == Rejected(ImportRefused) <==> refused)
            && (reply.Imported? <==> taken)
            && (reply == Rejected(ConstraintViolation) <==> !HasHead(db, s.identity) && !refused && !taken)
            && (reply.Imported? ==> reply.commit == s.newCommit && ImportedRows(db, next, s, reply.partition, startedAt, completedAt))
            && (!reply.Imported? ==> next == db)
  {
    InsertsExactly(db.files, s.newCommit, s.files);
    var found := FindPartition(db, s.identity);
    if found.Some? {
      ImportOnKnown(db, s, found.value);
    } else {
      ImportOnUnknown(db, s);
    }
  }

  ghost predicate TakesImport(db: Tables, a: Id, c: Id, recordCount: int, files: seq<FileEntry>, startedAt: int, completedAt: int) {
    a !in db.attempts && NewRequest(db, a) && startedAt <= completedAt && TakesCommit(db, c, recordCount, files)
  }

  ghost predicate ImportRows(db: Tables, next: Tables, p: Id, a: Id, c: Id, recordCount: int, files: seq<FileEntry>,
                             startedAt: int, completedAt: int)
    requires p in db.partitions
  {
    && next.partitions == db.partitions[p := db.partitions[p].(current := Some(c))] && next.leases == db.leases
    && next.attempts == db.attempts[a := AttemptRow(p, a, "import", Success, a, 1, None, startedAt, Some(completedAt))]
    && next.commits == db.commits[c := CommitRow(p, a, None, recordCount, |files|, completedAt)]
    && Added(db.files, next.files, c, files)
  }

  lemma ImportedExactly(db: Tables, p: Id, a: Id, c: Id, recordCount: int, files: seq<FileEntry>, startedAt: int, completedAt: int)
    requires CommitsOk(db) && p in db.partitions
    ensures var imported := ImportedDay(db, p, a, c, recordCount, files, startedAt, completedAt);
            && (imported.Some? <==> TakesImport(db, a, c, recordCount, files, startedAt, completedAt))
            && (imported.Some? ==> ImportRows(db, imported.value, p, a, c, recordCount, files, startedAt, completedAt))
  {
    var row := AttemptRow(p, a, "import", Success, a, 1, None, startedAt, Some(completedAt));
    var begun := WithAttempt(db, a, row);
    assert AttemptInsertable(db, a, row) <==> a !in db.attempts && NewRequest(db, a) && startedAt <= completedAt;
    if AttemptInsertable(db, a, row) {
      assert forall c :: c in db.commits ==> CommitRowOk(db, db.commits[c]);
      RootExactly(begun, p, a, c, recordCount, files, completedAt);
    }
  }

  lemma RootExactly(db: Tables, p: Id, a: Id, c: Id, recordCount: int, files: seq<FileEntry>, completedAt: int)
    requires p in db.partitions && a in db.attempts && db.attempts[a].partition == p
    requires forall d :: d in db.commits ==> db.commits[d].attempt != a
    ensures var row := CommitRow(p, a, None, recordCount, |files|, completedAt);
            var appended := AppendCommit(db, c, row, files);
            && (appended.Some? <==> TakesCommit(db, c, recordCount, files))
            && (appended.Some? ==> appended.value == Tables(db.partitions[p := db.partitions[p].(current := Some(c))], db.leases, db.attempts,
                                                            db.commits[c := row], appended.value.files)
                                   && Added(db.files, appended.value.files, c, files))
  {
    InsertsExactly(db.files, c, files);
  }

  lemma ImportOnKnown(db: Tables, s: Step, p: Id)
    requires Inv(db) && Imports(s) && FindPartition(db, s.identity) == Some(p)
    ensures HasHead(db, s.identity) <==> db.partitions[p].current.Some?
    ensures Held(db, s.identity) <==> db.leases[p].holder.Some?
    ensures db.partitions[p].current.None? ==>
              var imported := ImportedDay(db, p, s.newAttempt, s.newCommit, s.recordCount, s.files, StartOf(s), EndOf(s));
              && (imported.Some? <==> TakesDay(db, s, StartOf(s), EndOf(s)))
              && (imported.Some? ==> ImportedRows(db, imported.value, s, p, StartOf(s), EndOf(s)))
  {
    ImportedExactly(db, p, s.newAttempt, s.newCommit, s.recordCount, s.files, StartOf(s), EndOf(s));
  }

  lemma ImportOnUnknown(db: Tables, s: Step)
    requires Inv(db) && Imports(s) && !Known(db, s.identity)
    ensures !HasHead(db, s.identity) && !Held(db, s.identity)
    ensures ImportStep(db, s).1.Imported? <==> TakesDay(db, s, StartOf(s), EndOf(s))
    ensures ImportStep(db, s).1.Imported? ==> ImportedRows(db, ImportStep(db, s).0, s, s.newPartition, StartOf(s), EndOf(s))
  {
    var row := PartitionRow(s.identity, None, StartOf(s));
    if PartitionInsertable(db, s.newPartition, row) {
      ImportOnNew(db, WithPartition(db, s.newPartition, row), s, row);
    }
  }

  lemma ImportOnNew(db: Tables, db1: Tables, s: Step, row: PartitionRow)
    requires Inv(db) && Imports(s) && !Known(db, s.identity) && row == PartitionRow(s.identity, None, StartOf(s))
    requires PartitionInsertable(db, s.newPartition, row) && db1 == WithPartition(db, s.newPartition, row)
    ensures var imported := ImportedDay(db1, s.newPartition, s.newAttempt, s.newCommit, s.recordCount, s.files, StartOf(s), EndOf(s));
            && (imported.Some? <==> TakesDay(db, s, StartOf(s), EndOf(s)))
            && (imported.Some? ==> ImportedRows(db, imported.value, s, s.newPartition, StartOf(s), EndOf(s)))
  {
    NewPartitionKeepsInv(db, s.newPartition, row);
    ImportedExactly(db1, s.newPartition, s.newAttempt, s.newCommit, s.recordCount, s.files, StartOf(s), EndOf(s));
  }
}
