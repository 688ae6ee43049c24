/** What every reachable state of the metadata tables satisfies: the declared
    constraints, the attempt and lease life cycle, and one linear commit history
    per partition whose head moves only by appending. */
module MetadataHistory {
  import opened Wrappers
  import opened MetadataTables
  import opened MetadataProtocol

  /* The declared keys, checks and foreign keys, over all rows. */

  ghost predicate OneLeasePerPartition(db: Tables) {
    db.leases.Keys == db.partitions.Keys
  }

  ghost predicate IdentityUnique(db: Tables) {
    forall p, q :: p in db.partitions && q in db.partitions && db.partitions[p].identity == db.partitions[q].identity ==> p == q
  }

  ghost predicate HeadsOk(db: Tables) {
    forall p :: p in db.partitions ==> CommitOfPartition(db, p, db.partitions[p].current)
  }

  ghost predicate AttemptsOk(db: Tables) {
    forall a :: a in db.attempts ==> AttemptRowOk(db, db.attempts[a])
  }

  ghost predicate RequestUnique(db: Tables) {
    forall a, b :: a in db.attempts && b in db.attempts && db.attempts[a].request == db.attempts[b].request ==> a == b
  }

  ghost predicate CommitsOk(db: Tables) {
    forall c :: c in db.commits ==> CommitRowOk(db, db.commits[c])
  }

  ghost predicate OneCommitPerAttempt(db: Tables) {
    forall c, d :: c in db.commits && d in db.commits && db.commits[c].attempt == db.commits[d].attempt ==> c == d
  }

  ghost predicate LeasesOk(db: Tables) {
    forall p :: p in db.leases ==> LeaseRowOk(db, p, db.leases[p])
  }

  ghost predicate Constraints(db: Tables) {
    && OneLeasePerPartition(db) && IdentityUnique(db) && HeadsOk(db)
    && AttemptsOk(db) && RequestUnique(db)
    && CommitsOk(db) && OneCommitPerAttempt(db)
    && LeasesOk(db)
  }

  ghost predicate AttemptRowOk(db: Tables, row: AttemptRow) {
    && row.partition in db.partitions
    && CommitOfPartition(db, row.partition, row.base)
    && CompletionOk(row)
    && row.generation > 0
  }

  ghost predicate CommitRowOk(db: Tables, row: CommitRow) {
    && row.partition in db.partitions
    && row.attempt in db.attempts && db.attempts[row.attempt].partition == row.partition
    && CommitOfPartition(db, row.partition, row.parent)
  }

  ghost predicate LeaseRowOk(db: Tables, p: Id, lease: LeaseRow) {
    && lease.generation >= 0
    && (lease.holder.Some? ==>
          var h := lease.holder.value;
          && h.attempt in db.attempts
          && h.expires > h.heartbeat
          && db.attempts[h.attempt].partition == p
          && db.attempts[h.attempt].owner == h.owner
          && db.attempts[h.attempt].generation == lease.generation)
  }

  /** A held lease names a running attempt. */
  ghost predicate HoldersRun(db: Tables) {
    forall p :: p in db.leases && db.leases[p].holder.Some? ==>
      var a := db.leases[p].holder.value.attempt; a in db.attempts && db.attempts[a].status == Running
  }

  /** An attempt is successful exactly when a commit was made for it. */
  ghost predicate SuccessIsCommitted(db: Tables) {
    forall a :: a in db.attempts ==> (db.attempts[a].status == Success <==> Committed(db, a))
  }

  ghost predicate Committed(db: Tables, a: Id) {
    exists c :: c in db.commits && db.commits[c].attempt == a
  }

  /** `h` lists the commits of `p` from the root to the head, each the parent of
      the next, and leaves none out. */
  ghost predicate IsHistory(db: Tables, p: Id, h: seq<Id>) {
    && p in db.partitions
    && (forall i :: 0 <= i < |h| ==> IsLink(db, p, h, i))
    && (forall i, j :: 0 <= i < j < |h| ==> h[i] != h[j])
    && (forall c :: c in db.commits && db.commits[c].partition == p ==> c in h)
    && db.partitions[p].current == (if h == [] then None else Some(h[|h| - 1]))
  }

  ghost predicate IsLink(db: Tables, p: Id, h: seq<Id>, i: int)
    requires 0 <= i < |h|
  {
    && h[i] in db.commits
    && db.commits[h[i]].partition == p
    && db.commits[h[i]].parent == (if i == 0 then None else Some(h[i - 1]))
  }

  ghost predicate HasHistory(db: Tables, p: Id) {
    exists h :: IsHistory(db, p, h)
  }

  ghost predicate Linear(db: Tables) {
    forall p :: p in db.partitions ==> HasHistory(db, p)
  }

  ghost predicate Inv(db: Tables) {
    Constraints(db) && HoldersRun(db) && SuccessIsCommitted(db) && Linear(db)
  }

  /* How a step may change what histories depend on. */

  /** No commit was added and no existing head moved; partitions may be new. */
  ghost predicate SameCommits(db: Tables, next: Tables) {
    && next.commits == db.commits
    && (forall p :: p in db.partitions ==> p in next.partitions && next.partitions[p].current == db.partitions[p].current)
    && (forall p :: p in next.partitions && p !in db.partitions ==> next.partitions[p].current == None)
  }

  /** Exactly the commit `c` was added, on top of the head of `p`. */
  ghost predicate Appended(db: Tables, next: Tables, p: Id, c: Id) {
    && c !in db.commits && c in next.commits
    && next.commits == db.commits[c := next.commits[c]]
    && next.commits[c].partition == p
    && next.commits[c].parent == CurrentOf(db, Some(p))
    && p in next.partitions && next.partitions[p].current == Some(c)
    && (forall q :: q in db.partitions ==> q in next.partitions && (q != p ==> next.partitions[q].current == db.partitions[q].current))
    && (forall q :: q in next.partitions && q !in db.partitions && q != p ==> next.partitions[q].current == None)
  }

  lemma SameCommitsKeepHistory(db: Tables, next: Tables)
    requires CommitsOk(db) && Linear(db) && SameCommits(db, next)
    ensures forall p, h :: IsHistory(db, p, h) ==> IsHistory(next, p, h)
    ensures Linear(next)
  {
    forall p, h | IsHistory(db, p, h) ensures IsHistory(next, p, h) {
      forall i | 0 <= i < |h| ensures IsLink(next, p, h, i) { assert IsLink(db, p, h, i); }
    }
    forall p | p in next.partitions ensures HasHistory(next, p) {
      if p in db.partitions {
        assert HasHistory(db, p);
        var h :| IsHistory(db, p, h);
        assert IsHistory(next, p, h);
      } else {
        assert IsHistory(next, p, []);
      }
    }
  }

  /** The history of `p` before the step: empty for a partition the step creates. */
  ghost predicate HistoryBefore(db: Tables, p: Id, h: seq<Id>) {
    if p in db.partitions then IsHistory(db, p, h) else h == []
  }

  lemma AppendExtendsHistory(db: Tables, next: Tables, p: Id, c: Id, h: seq<Id>)
    requires CommitsOk(db) && Appended(db, next, p, c) && HistoryBefore(db, p, h)
    ensures IsHistory(next, p, h + [c])
  {
    var g := h + [c];
    if p in db.partitions {
      forall i | 0 <= i < |h| ensures IsLink(next, p, g, i) { assert IsLink(db, p, h, i); }
      forall i, j | 0 <= i < j < |g| ensures g[i] != g[j] { assert IsLink(db, p, h, i); }
    }
    assert IsLink(next, p, g, |h|);
    forall d | d in next.commits && next.commits[d].partition == p ensures d in g {
      if d != c { assert CommitRowOk(db, db.commits[d]); assert d in h; }
    }
  }

  lemma AppendKeepsOtherHistory(db: Tables, next: Tables, p: Id, c: Id, q: Id, h: seq<Id>)
    requires Appended(db, next, p, c) && q != p && IsHistory(db, q, h)
    ensures IsHistory(next, q, h)
  {
    forall i | 0 <= i < |h| ensures IsLink(next, q, h, i) { assert IsLink(db, q, h, i); }
  }

  lemma AppendKeepsLinear(db: Tables, next: Tables, p: Id, c: Id)
    requires CommitsOk(db) && Linear(db) && Appended(db, next, p, c)
    ensures Linear(next)
  {
    forall q | q in next.partitions ensures HasHistory(next, q) {
      var h: seq<Id> := [];
      if q in db.partitions {
        assert HasHistory(db, q);
        h :| IsHistory(db, q, h);
      }
      if q == p {
        AppendExtendsHistory(db, next, p, c, h);
      } else if q in db.partitions {
        AppendKeepsOtherHistory(db, next, p, c, q, h);
      } else {
        assert forall d :: d in db.commits ==> CommitRowOk(db, db.commits[d]);
        assert IsHistory(next, q, []);
      }
    }
  }

  /** A history has no other: walking the parents back from the head is forced. */
  lemma HistoryUnique(db: Tables, p: Id, h: seq<Id>, g: seq<Id>)
    requires IsHistory(db, p, h) && IsHistory(db, p, g)
    ensures h == g
  {
    HistorySuffix(db, p, h, g, |h|);
    HistorySuffix(db, p, g, h, |g|);
    assert h[0..] == h && g[0..] == g;
  }

  /** The last `n` commits of one history are the last `n` of any other. */
  lemma {:induction false} HistorySuffix(db: Tables, p: Id, h: seq<Id>, g: seq<Id>, n: nat)
    requires IsHistory(db, p, h) && IsHistory(db, p, g)
    requires n <= |h|
    ensures n <= |g| && h[|h| - n..] == g[|g| - n..]
  {
    if n == 1 {
      assert h[|h| - 1] == g[|g| - 1];
    } else if n > 1 {
      HistorySuffix(db, p, h, g, n - 1);
      var i, j := |h| - n + 1, |g| - n + 1;
      assert h[i] == h[i..][0] == g[j..][0] == g[j];
      assert IsLink(db, p, h, i) && IsLink(db, p, g, j);
      assert h[|h| - n..] == [h[i - 1]] + h[i..];
      assert g[|g| - n..] == [g[j - 1]] + g[j..];
    }
  }
}
