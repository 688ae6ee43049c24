/** The promises of the publication protocol, over whole runs that interleave the
    service with both import tools in any order. */
module MetadataSafety {
  import opened Wrappers
  import opened MetadataTables
  import opened MetadataProtocol
  import opened MetadataHistory
  import opened MetadataInvariants

  /* One linear history. */

  /** In every reachable state the commits of a partition form exactly one parent
      chain, from its head to a root. */
  lemma OneLinearHistory(steps: seq<Step>, p: Id)
    requires p in Run(EMPTY, steps).partitions
    ensures exists h :: IsHistory(Run(EMPTY, steps), p, h) && forall g :: IsHistory(Run(EMPTY, steps), p, g) ==> g == h
  {
    var db := Run(EMPTY, steps);
    ReachableInv(steps);
    assert HasHistory(db, p);
    var h :| IsHistory(db, p, h);
    forall g | IsHistory(db, p, g) ensures g == h { HistoryUnique(db, p, g, h); }
  }

  /** The head moves only by appending: what a partition's history was, it starts
      with for ever. */
  lemma {:induction false} HistoryOnlyGrows(db: Tables, steps: seq<Step>, p: Id, h: seq<Id>)
    requires Inv(db) && IsHistory(db, p, h)
    ensures exists g :: IsHistory(Run(db, steps), p, g) && h <= g
    decreases |steps|
  {
    if steps == [] {
      assert IsHistory(Run(db, steps), p, h);
    } else {
      var next := Next(db, steps[0]);
      StepKeepsInv(db, steps[0]);
      var g := StepHistory(db, steps[0], p, h);
      HistoryOnlyGrows(next, steps[1..], p, g);
      assert Run(db, steps) == Run(next, steps[1..]);
    }
  }

  lemma StepHistory(db: Tables, s: Step, p: Id, h: seq<Id>) returns (g: seq<Id>)
    requires Inv(db) && StepEffect(db, s) && IsHistory(db, p, h)
    ensures IsHistory(Next(db, s), p, g)
    ensures g == h || exists c :: c !in db.commits && g == h + [c]
  {
    var reply := ReplyTo(db, s);
    var next := Next(db, s);
    if !(reply.Published? || reply.Imported?) {
      SameCommitsKeepHistory(db, next);
      g := h;
    } else if reply.partition == p {
      AppendExtendsHistory(db, next, p, reply.commit, h);
      g := h + [reply.commit];
    } else {
      AppendKeepsOtherHistory(db, next, reply.partition, reply.commit, p, h);
      g := h;
    }
  }

  /* Replaying a finished request. */

  /** In the history of `p`, commit `b` comes before commit `c`. */
  ghost predicate Before(db: Tables, p: Id, b: Id, c: Id) {
    exists h, i, j :: IsHistory(db, p, h) && 0 <= i < j < |h| && h[i] == b && h[j] == c
  }

  ghost predicate AncestorOrSelf(db: Tables, p: Id, b: Id, c: Id) {
    b == c || Before(db, p, b, c)
  }

  /** Every commit was built on top of what its attempt saw when it began. */
  ghost predicate BasesPrecede(db: Tables) {
    forall c :: c in db.commits ==> BasePrecedes(db, c)
  }

  ghost predicate BasePrecedes(db: Tables, c: Id)
    requires c in db.commits
  {
    db.commits[c].attempt in db.attempts &&
    var base := db.attempts[db.commits[c].attempt].base;
    base.Some? ==> Before(db, db.commits[c].partition, base.value, c)
  }

  /** What no step ever changes in an attempt row. */
  predicate SameAttempt(row: AttemptRow, row': AttemptRow) {
    && row'.partition == row.partition && row'.base == row.base
    && row'.owner == row.owner && row'.generation == row.generation && row'.request == row.request
  }

  lemma AttemptsKeepIdentity(db: Tables, s: Step, a: Id)
    requires a in db.attempts
    ensures a in Next(db, s).attempts && SameAttempt(db.attempts[a], Next(db, s).attempts[a])
  {
    if s.Begin? {
      BeginKeepsAttempt(db, s, a);
    } else if Imports(s) {
      ImportKeepsAttempt(db, s, a);
    }
  }

  lemma BeginKeepsAttempt(db: Tables, s: Step, a: Id)
    requires a in db.attempts && s.Begin?
    ensures a in BeginStep(db, s).0.attempts && BeginStep(db, s).0.attempts[a] == db.attempts[a]
  {}

  lemma ImportKeepsAttempt(db: Tables, s: Step, a: Id)
    requires a in db.attempts && Imports(s)
    ensures a in ImportStep(db, s).0.attempts && ImportStep(db, s).0.attempts[a] == db.attempts[a]
  {}

  lemma BeforeStays(db: Tables, s: Step, p: Id, b: Id, c: Id)
    requires Inv(db) && Before(db, p, b, c)
    ensures Before(Next(db, s), p, b, c)
  {
    StepKeepsInv(db, s);
    var h, i, j :| IsHistory(db, p, h) && 0 <= i < j < |h| && h[i] == b && h[j] == c;
    var g := StepHistory(db, s, p, h);
    assert g[i] == b && g[j] == c;
  }

  /** The base of a new commit's attempt is an older commit of the partition. */
  lemma NewCommitBase(db: Tables, s: Step)
    requires AttemptsOk(db) && (ReplyTo(db, s).Published? || ReplyTo(db, s).Imported?)
    ensures var next, reply := Next(db, s), ReplyTo(db, s);
            && reply.commit in next.commits && next.commits[reply.commit].partition == reply.partition
            && next.commits[reply.commit].attempt in next.attempts
            && var base := next.attempts[next.commits[reply.commit].attempt].base;
               base.Some? ==> reply.partition in db.partitions && CommitOfPartition(db, reply.partition, base)
  {
    if ReplyTo(db, s).Published? {
      assert AttemptRowOk(db, db.attempts[s.attempt]);
    }
  }

  lemma StepKeepsBasesPrecede(db: Tables, s: Step)
    requires Inv(db) && BasesPrecede(db)
    ensures BasesPrecede(Next(db, s))
  {
    var next, reply := Next(db, s), ReplyTo(db, s);
    StepKeepsInv(db, s);
    forall c | c in next.commits ensures BasePrecedes(next, c) {
      if c in db.commits {
        assert BasePrecedes(db, c);
        var a := db.commits[c].attempt;
        AttemptsKeepIdentity(db, s, a);
        if db.attempts[a].base.Some? { BeforeStays(db, s, db.commits[c].partition, db.attempts[a].base.value, c); }
      } else {
        NewCommitBase(db, s);
        var base := next.attempts[next.commits[c].attempt].base;
        if base.Some? { NewCommitIsLast(db, s, base.value); }
      }
    }
  }

  lemma NewCommitIsLast(db: Tables, s: Step, b: Id)
    requires Inv(db) && StepEffect(db, s) && (ReplyTo(db, s).Published? || ReplyTo(db, s).Imported?)
    requires ReplyTo(db, s).partition in db.partitions && CommitOfPartition(db, ReplyTo(db, s).partition, Some(b))
    ensures Before(Next(db, s), ReplyTo(db, s).partition, b, ReplyTo(db, s).commit)
  {
    var p, c := ReplyTo(db, s).partition, ReplyTo(db, s).commit;
    assert HasHistory(db, p);
    var h :| IsHistory(db, p, h);
    var i :| 0 <= i < |h| && h[i] == b;
    AppendExtendsHistory(db, Next(db, s), p, c, h);
    assert (h + [c])[i] == b && (h + [c])[|h|] == c;
  }

  lemma {:induction false} ReachableBasesPrecede(db: Tables, steps: seq<Step>)
    requires Inv(db) && BasesPrecede(db)
    ensures BasesPrecede(Run(db, steps))
    decreases |steps|
  {
    if steps != [] {
      StepKeepsInv(db, steps[0]);
      StepKeepsBasesPrecede(db, steps[0]);
      ReachableBasesPrecede(Next(db, steps[0]), steps[1..]);
    }
  }

  /** A commit is never built on one of its own descendants. */
  lemma BeforeIsStrict(db: Tables, p: Id, b: Id, c: Id)
    requires Before(db, p, b, c)
    ensures b != c && !Before(db, p, c, b)
  {
    var h, i, j :| IsHistory(db, p, h) && 0 <= i < j < |h| && h[i] == b && h[j] == c;
    if Before(db, p, c, b) {
      var g, k, l :| IsHistory(db, p, g) && 0 <= k < l < |g| && g[k] == c && g[l] == b;
      HistoryUnique(db, p, g, h);
      assert false;
    }
  }

  /** A successful request replayed on its own partition is answered with a commit
      that has the request's own commit as ancestor or self; replayed with any
      other identity it never is. */
  lemma ReplayOfSuccess(steps: seq<Step>, s: Step, a: Id, own: Id)
    requires s.Begin?
    requires var db := Run(EMPTY, steps);
             && a in db.attempts && db.attempts[a].request == s.request && db.attempts[a].status == Success
             && own in db.commits && db.commits[own].attempt == a
    ensures var db := Run(EMPTY, steps);
            && Next(db, s) == db
            && ReplyTo(db, s).Replayed? && ReplyTo(db, s).attempt == a && ReplyTo(db, s).reused
            && db.attempts[a].partition in db.partitions
            && var p, answer := db.attempts[a].partition, ReplyTo(db, s).answer;
               (answer.Some? && AncestorOrSelf(db, p, own, answer.value)) <==> s.identity == db.partitions[p].identity
  {
    var db := Run(EMPTY, steps);
    ReachableInv(steps);
    ReachableBasesPrecede(EMPTY, steps);
    var p, answer := db.attempts[a].partition, ReplyTo(db, s).answer;
    assert AttemptRowOk(db, db.attempts[a]) && CommitRowOk(db, db.commits[own]);
    assert ReplyTo(db, s) == Replay(db, s.identity, a);
    if s.identity == db.partitions[p].identity {
      assert FindPartition(db, s.identity) == Some(p);
      assert HasHistory(db, p);
      var h :| IsHistory(db, p, h);
      assert own in h;
      var i :| 0 <= i < |h| && h[i] == own;
      if i < |h| - 1 { assert Before(db, p, own, h[|h| - 1]); }
    } else if answer.Some? {
      ForeignReplay(db, s.identity, a, own);
    }
  }

  /** A request resolved by its id alone is answered from its own partition: a successful
      one always gets a commit that has its own as ancestor or self. */
  lemma ResolveOfSuccess(steps: seq<Step>, request: Id, a: Id, own: Id)
    requires var db := Run(EMPTY, steps);
             && a in db.attempts && db.attempts[a].request == request && db.attempts[a].status == Success
             && own in db.commits && db.commits[own].attempt == a
    ensures var db := Run(EMPTY, steps);
            && Resolve(db, request).Some? && Resolve(db, request).value.Replayed?
            && Resolve(db, request).value.attempt == a && Resolve(db, request).value.reused
            && Resolve(db, request).value.answer.Some?
            && AncestorOrSelf(db, db.attempts[a].partition, own, Resolve(db, request).value.answer.value)
  {
    var db := Run(EMPTY, steps);
    ReachableInv(steps);
    var p := db.attempts[a].partition;
    assert AttemptRowOk(db, db.attempts[a]);
    var identity := db.partitions[p].identity;
    ReplayOfSuccess(steps, Begin(identity, false, request, 0, "ingestion", 1, 0, 0, 0), a, own);
    assert FindPartition(db, identity) == Some(p);
    assert FindRequest(db, request) == Some(a);
  }

  lemma ForeignReplay(db: Tables, identity: Identity, a: Id, own: Id)
    requires Inv(db) && BasesPrecede(db)
    requires a in db.attempts && db.attempts[a].status == Success && db.attempts[a].partition in db.partitions
    requires own in db.commits && db.commits[own].attempt == a && db.commits[own].partition == db.attempts[a].partition
    requires identity != db.partitions[db.attempts[a].partition].identity
    requires Replay(db, identity, a).answer.Some?
    ensures !AncestorOrSelf(db, db.attempts[a].partition, own, Replay(db, identity, a).answer.value)
  {
    var p, c := db.attempts[a].partition, Replay(db, identity, a).answer.value;
    var q := FindPartition(db, identity);
    if CurrentOf(db, q).Some? {
      assert CommitOfPartition(db, q.value, db.partitions[q.value].current);
      forall h, j | IsHistory(db, p, h) && 0 <= j < |h| ensures h[j] != c {
        assert IsLink(db, p, h, j);
      }
    } else {
      assert BasePrecedes(db, own);
      BeforeIsStrict(db, p, c, own);
    }
  }

  /* A foreign replay that is answered with another day's commit. */

  const FIRST := Identity("s", "r", 0)
  const SECOND := Identity("s", "r", 1)

  function Crawl(identity: Identity, request: Id, partition: Id, attempt: Id): Step {
    Begin(identity, false, request, 2, "ingestion", 300, partition, attempt, 0)
  }

  function EmptyDay(attempt: Id, commit: Id): Step {
    Publish(attempt, 2, 1, None, 0, [], commit, 0)
  }

  /** Two days are crawled and published, one after the other. */
  function TwoDays(): seq<Step> {
    [Crawl(FIRST, 1, 10, 11), EmptyDay(11, 12), Crawl(SECOND, 3, 20, 21), EmptyDay(21, 22)]
  }

  function DoneRow(partition: Id, request: Id): AttemptRow {
    AttemptRow(partition, request, "ingestion", Success, 2, 1, None, 0, Some(0))
  }

  function DoneDay(db: Tables, identity: Identity, request: Id, partition: Id, attempt: Id, commit: Id): Tables {
    Tables(db.partitions[partition := PartitionRow(identity, Some(commit), 0)], db.leases[partition := LeaseRow(1, None)],
           db.attempts[attempt := DoneRow(partition, request)],
           db.commits[commit := CommitRow(partition, attempt, None, 0, 0, 0)], db.files)
  }

  /** What the crawl leaves before it publishes. */
  function BegunDay(db: Tables, identity: Identity, request: Id, partition: Id, attempt: Id): Tables {
    Tables(db.partitions[partition := PartitionRow(identity, None, 0)],
           db.leases[partition := LeaseRow(1, Some(Holder(attempt, 2, 0, 300)))],
           db.attempts[attempt := DoneRow(partition, request).(status := Running, completedAt := None)], db.commits, db.files)
  }

  lemma DayBegun(db: Tables, identity: Identity, request: Id, partition: Id, attempt: Id)
    requires identity.source != "" && identity.resource != "" && partition !in db.partitions && attempt !in db.attempts
    requires forall p :: p in db.partitions ==> db.partitions[p].identity != identity
    requires forall a :: a in db.attempts ==> db.attempts[a].request != request
    ensures Next(db, Crawl(identity, request, partition, attempt)) == BegunDay(db, identity, request, partition, attempt)
  {
    var begin := Crawl(identity, request, partition, attempt);
    var db1 := WithPartition(db, partition, PartitionRow(identity, None, 0));
    assert FindPartition(db, identity) == None && FindRequest(db, request) == None;
    assert Located(db, identity, partition, 0) == Some((partition, db1));
    assert AttemptInsertable(db1, attempt, BegunAttempt(db1, partition, 1, begin));
  }

  lemma DayPublished(db: Tables, identity: Identity, request: Id, partition: Id, attempt: Id, commit: Id)
    requires commit !in db.commits && forall c :: c in db.commits ==> db.commits[c].attempt != attempt
    ensures Next(BegunDay(db, identity, request, partition, attempt), EmptyDay(attempt, commit))
            == DoneDay(db, identity, request, partition, attempt, commit)
  {
    var begun := BegunDay(db, identity, request, partition, attempt);
    assert Fence(begun, partition, attempt, 2, 1, 0) == None;
    assert CommitInsertable(begun, commit, CommitRow(partition, attempt, None, 0, 0, 0));
    var done := Next(begun, EmptyDay(attempt, commit));
    assert done.partitions == DoneDay(db, identity, request, partition, attempt, commit).partitions;
    assert done.attempts == DoneDay(db, identity, request, partition, attempt, commit).attempts;
    assert done.leases == DoneDay(db, identity, request, partition, attempt, commit).leases;
  }

  lemma TwoDaysDone()
    ensures Run(EMPTY, TwoDays()) == DoneDay(DoneDay(EMPTY, FIRST, 1, 10, 11, 12), SECOND, 3, 20, 21, 22)
  {
    var steps := TwoDays();
    var db1 := Next(EMPTY, steps[0]);
    var db2 := Next(db1, steps[1]);
    DayBegun(EMPTY, FIRST, 1, 10, 11);
    DayPublished(EMPTY, FIRST, 1, 10, 11, 12);
    DayBegun(db2, SECOND, 3, 20, 21);
    DayPublished(db2, SECOND, 3, 20, 21, 22);
    assert steps[1..] == [steps[1], steps[2], steps[3]] && steps[2..] == [steps[2], steps[3]] && steps[3..] == [steps[3]];
    var db3 := Next(db2, steps[2]);
    assert Run(db3, steps[3..]) == Run(Next(db3, steps[3]), []);
    assert Run(db2, steps[2..]) == Run(db3, steps[2..][1..]);
    assert Run(db1, steps[1..]) == Run(db2, steps[1..][1..]);
  }

  /** The first day's request, replayed for the second day, is answered as done, with the
      second day's commit; replayed for a day nobody crawled, as done with no commit. */
  lemma ForeignReplayHappens()
    ensures var db := Run(EMPTY, TwoDays());
            && 11 in db.attempts && db.attempts[11].request == 1 && db.attempts[11].status == Success
            && 12 in db.commits && db.commits[12].attempt == 11 && 22 in db.commits && db.commits[22].partition != db.attempts[11].partition
            && ReplyTo(db, Crawl(SECOND, 1, 30, 31)) == Replayed(11, true, Some(20), Some(22))
            && ReplyTo(db, Crawl(Identity("s", "r", 2), 1, 30, 31)) == Replayed(11, true, None, None)
  {
    TwoDaysDone();
    RepliesDone(Run(EMPTY, TwoDays()));
  }

  lemma RepliesDone(db: Tables)
    requires db == DoneDay(DoneDay(EMPTY, FIRST, 1, 10, 11, 12), SECOND, 3, 20, 21, 22)
    ensures BeginStep(db, Crawl(SECOND, 1, 30, 31)) == (db, Replayed(11, true, Some(20), Some(22)))
    ensures BeginStep(db, Crawl(Identity("s", "r", 2), 1, 30, 31)) == (db, Replayed(11, true, None, None))
  {
    assert FindRequest(db, 1) == Some(11) by { assert 11 in db.attempts; }
    assert FindPartition(db, SECOND) == Some(20) by { assert 20 in db.partitions; }
  }
}
