/** Fencing, the held-lease invariant and time exclusion, over whole runs. */
module MetadataFencing {
  import opened Wrappers
  import opened MetadataTables
  import opened MetadataProtocol
  import opened MetadataHistory
  import opened MetadataInvariants
  import opened MetadataSafety

  /* Fencing. */

  /** The attempt exists and no longer holds the lease of its partition. */
  ghost predicate Fenced(db: Tables, a: Id) {
    a in db.attempts && !Holds(db, db.attempts[a].partition, a)
  }

  /** Renewing or publishing as `a` is refused, whatever else the request says
      and whatever the clock shows, and changes nothing. */
  ghost predicate Refused(db: Tables, a: Id) {
    forall s: Step :: (s.Renew? || s.Publish?) && s.attempt == a ==> ReplyTo(db, s).Rejected? && Next(db, s) == db
  }

  /** How a step may treat a lease row: a lease is claimed only by an attempt that
      did not exist before, with the next generation; otherwise its holder stays or
      is released and the generation stays. */
  predicate LeaseMove(db: Tables, lease: LeaseRow, lease': LeaseRow) {
    || lease' == lease
    || (lease'.holder.Some? && lease'.holder.value.attempt !in db.attempts && lease'.generation == lease.generation + 1)
    || (lease'.holder.None? && lease'.generation == lease.generation)
    || (lease.holder.Some? && lease'.holder.Some? && lease'.generation == lease.generation
        && lease'.holder.value.attempt == lease.holder.value.attempt)
  }

  lemma LeaseEffect(db: Tables, s: Step, p: Id)
    requires OneLeasePerPartition(db) && p in db.leases
    ensures p in Next(db, s).leases && LeaseMove(db, db.leases[p], Next(db, s).leases[p])
  {
    if s.Begin? {
      BeginLeaseEffect(db, s, p);
    } else if Imports(s) {
      ImportLeaseEffect(db, s, p);
    }
  }

  lemma BeginLeaseEffect(db: Tables, s: Step, p: Id)
    requires OneLeasePerPartition(db) && p in db.leases && s.Begin?
    ensures p in BeginStep(db, s).0.leases && LeaseMove(db, db.leases[p], BeginStep(db, s).0.leases[p])
  {}

  lemma ImportLeaseEffect(db: Tables, s: Step, p: Id)
    requires OneLeasePerPartition(db) && p in db.leases && Imports(s)
    ensures p in ImportStep(db, s).0.leases && ImportStep(db, s).0.leases[p] == db.leases[p]
  {}

  lemma StepKeepsFenced(db: Tables, s: Step, a: Id)
    requires Inv(db) && Fenced(db, a)
    ensures Fenced(Next(db, s), a)
  {
    AttemptsKeepIdentity(db, s, a);
    assert AttemptRowOk(db, db.attempts[a]);
    LeaseEffect(db, s, db.attempts[a].partition);
  }

  lemma FencedIsRefused(db: Tables, a: Id)
    requires Fenced(db, a)
    ensures Refused(db, a)
  {}

  /** Once the lease was claimed by another attempt or released, the attempt that
      held it can never again renew or publish. */
  lemma {:induction false} FencedForEver(db: Tables, steps: seq<Step>, a: Id)
    requires Inv(db) && Fenced(db, a)
    ensures Fenced(Run(db, steps), a) && Refused(Run(db, steps), a)
    decreases |steps|
  {
    if steps == [] {
      FencedIsRefused(db, a);
    } else {
      StepKeepsInv(db, steps[0]);
      StepKeepsFenced(db, steps[0], a);
      FencedForEver(Next(db, steps[0]), steps[1..], a);
    }
  }

  /** Losing the lease in one step is all it takes. */
  lemma LosingTheLeaseFences(db: Tables, s: Step, later: seq<Step>, p: Id, a: Id)
    requires Inv(db) && Holds(db, p, a) && !Holds(Next(db, s), p, a)
    ensures Refused(Run(Next(db, s), later), a)
  {
    assert LeaseRowOk(db, p, db.leases[p]);
    StepKeepsInv(db, s);
    AttemptsKeepIdentity(db, s, a);
    FencedForEver(Next(db, s), later, a);
  }

  ghost function Generation(db: Tables, p: Id): int
    requires p in db.leases
  {
    db.leases[p].generation
  }

  lemma {:induction false} GenerationNeverDecreases(db: Tables, steps: seq<Step>, p: Id)
    requires Inv(db) && p in db.leases
    ensures p in Run(db, steps).leases && Generation(db, p) <= Generation(Run(db, steps), p)
    decreases |steps|
  {
    if steps != [] {
      StepKeepsInv(db, steps[0]);
      LeaseEffect(db, steps[0], p);
      GenerationNeverDecreases(Next(db, steps[0]), steps[1..], p);
    }
  }

  /* The held-lease invariant. */

  /** A held lease names a running attempt of the partition with the same owner
      and generation. */
  ghost predicate HolderMatches(db: Tables, p: Id)
    requires p in db.leases && db.leases[p].holder.Some?
  {
    var h := db.leases[p].holder.value;
    && h.attempt in db.attempts
    && db.attempts[h.attempt].partition == p
    && db.attempts[h.attempt].owner == h.owner
    && db.attempts[h.attempt].generation == db.leases[p].generation
    && db.attempts[h.attempt].status == Running
  }

  lemma HeldLeaseMatches(steps: seq<Step>, p: Id)
    requires p in Run(EMPTY, steps).leases && Run(EMPTY, steps).leases[p].holder.Some?
    ensures HolderMatches(Run(EMPTY, steps), p)
  {
    var db := Run(EMPTY, steps);
    ReachableInv(steps);
    assert LeaseRowOk(db, p, db.leases[p]);
  }

  /** The holder began from the commit that is still the head. */
  ghost predicate HeldBase(db: Tables, p: Id) {
    p in db.leases && p in db.partitions && db.leases[p].holder.Some? ==>
      db.leases[p].holder.value.attempt in db.attempts &&
      db.attempts[db.leases[p].holder.value.attempt].base == db.partitions[p].current
  }

  ghost predicate HeldBases(db: Tables) {
    forall p :: p in db.leases ==> HeldBase(db, p)
  }

  /** The step is a manifest migration of a day that has a row and no commit, whose lease
      is held; its ids are fresh, its times in order, and its files can be inserted. */
  ghost predicate CommitsUnderLease(db: Tables, s: Step) {
    && s.ImportManifest? && FindPartition(db, s.identity).Some?
    && var p := FindPartition(db, s.identity).value;
    && p in db.partitions && db.partitions[p].current.None? && p in db.leases && db.leases[p].holder.Some?
    && s.newAttempt !in db.attempts && (forall a :: a in db.attempts ==> db.attempts[a].request != s.newAttempt)
    && s.newCommit !in db.commits && s.startedAt <= s.completedAt
    && s.recordCount >= 0 && (s.recordCount == 0 || s.files != []) && InsertFiles(db.files, s.newCommit, s.files).Some?
  }

  ghost predicate CommittedUnderLease(db: Tables, s: Step) {
    s.ImportManifest? && ImportStep(db, s).1.Imported? &&
    ImportStep(db, s).1.partition in db.leases && db.leases[ImportStep(db, s).1.partition].holder.Some?
  }

  /** Just such a step commits while somebody holds the lease. */
  lemma GuardIsReply(db: Tables, s: Step)
    requires Inv(db) && s.ImportManifest?
    ensures CommitsUnderLease(db, s) <==> CommittedUnderLease(db, s)
    ensures CommitsUnderLease(db, s) ==> ReplyTo(db, s).partition == FindPartition(db, s.identity).value
  {
    var found := FindPartition(db, s.identity);
    if found.Some? { ImportGuards(db, s, found.value); }
  }

  /** What the row-by-row inserts of a day check. */
  lemma ImportGuards(db: Tables, s: Step, p: Id)
    requires CommitsOk(db) && s.ImportManifest? && p in db.partitions
    ensures ImportedDay(db, p, s.newAttempt, s.newCommit, s.recordCount, s.files, s.startedAt, s.completedAt).Some? <==>
              && s.newAttempt !in db.attempts && (forall a :: a in db.attempts ==> db.attempts[a].request != s.newAttempt)
              && s.newCommit !in db.commits && s.startedAt <= s.completedAt
              && s.recordCount >= 0 && (s.recordCount == 0 || s.files != []) && InsertFiles(db.files, s.newCommit, s.files).Some?
  {
    var row := AttemptRow(p, s.newAttempt, "import", Success, s.newAttempt, 1, None, s.startedAt, Some(s.completedAt));
    assert AttemptInsertable(db, s.newAttempt, row) <==>
             && s.newAttempt !in db.attempts && (forall a :: a in db.attempts ==> db.attempts[a].request != s.newAttempt)
             && s.startedAt <= s.completedAt;
    forall c | c in db.commits ensures db.commits[c].attempt in db.attempts { assert CommitRowOk(db, db.commits[c]); }
  }

  /** Every step but that one keeps the base of every holder current, and that one
      always breaks it. */
  lemma HeldBasesKeptExactly(db: Tables, s: Step)
    requires Inv(db) && HeldBases(db)
    ensures HeldBases(Next(db, s)) <==> !CommitsUnderLease(db, s)
  {
    StepKeepsInv(db, s);
    if s.ImportManifest? { GuardIsReply(db, s); }
    var next := Next(db, s);
    if CommitsUnderLease(db, s) {
      var p := ReplyTo(db, s).partition;
      ImportUnderLease(db, s, p);
      assert !HeldBase(next, p);
    } else {
      forall p | p in next.leases ensures HeldBase(next, p) {
        StepKeepsHeldBase(db, s, p);
      }
    }
  }

  lemma ImportUnderLease(db: Tables, s: Step, p: Id)
    requires Inv(db) && HeldBases(db) && CommitsUnderLease(db, s) && p == ReplyTo(db, s).partition
    ensures var next := Next(db, s);
            && p in next.leases && p in next.partitions && next.leases[p] == db.leases[p]
            && next.partitions[p].current == Some(s.newCommit)
            && next.attempts[next.leases[p].holder.value.attempt].base == None
  {
    GuardIsReply(db, s);
    assert LeaseRowOk(db, p, db.leases[p]);
    assert HeldBase(db, p);
  }

  lemma StepKeepsHeldBase(db: Tables, s: Step, p: Id)
    requires OneLeasePerPartition(db) && LeasesOk(db) && HeldBases(db)
    requires !CommittedUnderLease(db, s) && p in Next(db, s).leases
    ensures HeldBase(Next(db, s), p)
  {
    if s.Begin? {
      BeginKeepsHeldBase(db, s, p);
    } else if Imports(s) {
      ImportKeepsHeldBase(db, s, p);
    } else {
      assert HeldBase(db, p) && LeaseRowOk(db, p, db.leases[p]);
    }
  }

  lemma BeginKeepsHeldBase(db: Tables, s: Step, p: Id)
    requires OneLeasePerPartition(db) && HeldBases(db)
    requires s.Begin? && p in BeginStep(db, s).0.leases
    ensures HeldBase(BeginStep(db, s).0, p)
  {
    if p in db.leases { assert HeldBase(db, p); }
  }

  lemma ImportKeepsHeldBase(db: Tables, s: Step, p: Id)
    requires OneLeasePerPartition(db) && HeldBases(db)
    requires Imports(s) && !CommittedUnderLease(db, s) && p in ImportStep(db, s).0.leases
    ensures HeldBase(ImportStep(db, s).0, p)
  {
    if p in db.leases { assert HeldBase(db, p); }
  }

  /** Under the service and `_publish_day` alone the bases stay current. */
  lemma {:induction false} HeldBasesOverRuns(db: Tables, steps: seq<Step>)
    requires Inv(db) && HeldBases(db)
    requires forall i :: 0 <= i < |steps| ==> !steps[i].ImportManifest?
    ensures HeldBases(Run(db, steps))
    decreases |steps|
  {
    if steps != [] {
      StepKeepsInv(db, steps[0]);
      HeldBasesKeptExactly(db, steps[0]);
      HeldBasesOverRuns(Next(db, steps[0]), steps[1..]);
    }
  }

  /** A holder that publishes on its own base never meets a moved head. */
  lemma HolderNeverMismatches(db: Tables, s: Step, p: Id)
    requires Inv(db) && HeldBase(db, p) && s.Publish? && Holds(db, p, s.attempt)
    requires s.attempt in db.attempts && s.expectedBase == db.attempts[s.attempt].base
    ensures ReplyTo(db, s) != Rejected(BaseCommitMismatch)
  {
    assert LeaseRowOk(db, p, db.leases[p]);
  }

  /** After a migration committed under the lease, the holder's publication on its
      own base is refused for as long as it lives. */
  lemma MigrationFencesHolder(db: Tables, s: Step, later: seq<Step>, publish: Step, p: Id)
    requires Inv(db) && HeldBases(db) && CommitsUnderLease(db, s) && p == ReplyTo(db, s).partition
    requires publish.Publish? && Holds(db, p, publish.attempt) && publish.expectedBase == None
    ensures var final := Run(Next(db, s), later);
            ReplyTo(final, publish).Rejected? && Next(final, publish) == final
  {
    var next := Next(db, s);
    ImportUnderLease(db, s, p);
    StepKeepsInv(db, s);
    AttemptsKeepIdentity(db, s, publish.attempt);
    assert LeaseRowOk(db, p, db.leases[p]);
    HeadStays(next, later, p);
    AttemptStays(next, later, publish.attempt);
  }

  lemma {:induction false} HeadStays(db: Tables, steps: seq<Step>, p: Id)
    requires Inv(db) && p in db.partitions && db.partitions[p].current.Some?
    ensures p in Run(db, steps).partitions && Run(db, steps).partitions[p].current.Some?
    decreases |steps|
  {
    if steps != [] {
      StepKeepsInv(db, steps[0]);
      HeadStays(Next(db, steps[0]), steps[1..], p);
    }
  }

  lemma {:induction false} AttemptStays(db: Tables, steps: seq<Step>, a: Id)
    requires a in db.attempts
    ensures a in Run(db, steps).attempts && Run(db, steps).attempts[a].partition == db.attempts[a].partition
    decreases |steps|
  {
    if steps != [] {
      AttemptsKeepIdentity(db, steps[0], a);
      AttemptStays(Next(db, steps[0]), steps[1..], a);
    }
  }

  /** A first crawl takes its lease, and the migration tool commits the same day. */
  function FirstCrawl(): Step {
    Begin(Identity("s", "r", 0), false, 1, 2, "ingestion", 300, 10, 11, 0)
  }

  function DayMigrated(): Step {
    ImportManifest(Identity("s", "r", 0), 20, 21, 22, 0, [], 0, 0)
  }

  /** The break is real: the crawl holds the lease when the migration commits its day,
      and can no longer publish. */
  lemma MigrationCanBreakBase()
    ensures exists steps: seq<Step>, migrate: Step ::
              HeldBases(Run(EMPTY, steps)) && CommitsUnderLease(Run(EMPTY, steps), migrate)
  {
    var begin := FirstCrawl();
    assert Run(EMPTY, [begin]) == Run(Next(EMPTY, begin), []) == Next(EMPTY, begin);
    CrawlHoldsLease();
    MigrationUnderCrawl();
    assert CommitsUnderLease(Run(EMPTY, [begin]), DayMigrated());
  }

  lemma CrawlHoldsLease()
    ensures HeldBases(Next(EMPTY, FirstCrawl()))
    ensures var db := Next(EMPTY, FirstCrawl());
            10 in db.partitions && db.partitions[10] == PartitionRow(Identity("s", "r", 0), None, 0)
  {
    var begin := FirstCrawl();
    assert Located(EMPTY, begin.identity, 10, 0).Some?;
    assert AttemptInsertable(Located(EMPTY, begin.identity, 10, 0).value.1, 11,
                             BegunAttempt(Located(EMPTY, begin.identity, 10, 0).value.1, 10, 1, begin));
  }

  lemma MigrationUnderCrawl()
    ensures CommitsUnderLease(Next(EMPTY, FirstCrawl()), DayMigrated())
  {
    var db := Next(EMPTY, FirstCrawl());
    CrawlHoldsLease();
    assert FindPartition(db, Identity("s", "r", 0)) == Some(10) by {
      assert 10 in db.partitions;
    }
  }

  /** Failing an attempt never touches another's lease, nor a finished attempt. */
  lemma FailIsLocal(db: Tables, s: Step)
    requires s.Fail?
    ensures var next := FailStep(db, s).0;
            && next.partitions == db.partitions && next.commits == db.commits && next.files == db.files
            && (forall p :: p in db.leases && !Holds(db, p, s.attempt) ==> p in next.leases && next.leases[p] == db.leases[p])
            && (forall a :: a in db.attempts && (a != s.attempt || db.attempts[a].status != Running) ==>
                  a in next.attempts && next.attempts[a] == db.attempts[a])
  {}
}
