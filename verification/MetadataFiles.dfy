/** The files of a commit: a publication stores exactly the files it was given, they stay
    what they are in every later state, and a snapshot shows them. */
module MetadataFiles {
  import opened Wrappers
  import opened Collections
  import opened MetadataTables
  import opened MetadataProtocol
  import opened MetadataHistory
  import opened MetadataInvariants
  import opened MetadataSnapshot

  type FileTable = map<(Id, int), FileRow>

  function Location(row: FileRow): (string, string) { (row.bucket, row.objectKey) }

  predicate WellFormed(file: FileEntry) {
    && file.number >= 0 && file.row.rowCount >= 0 && file.row.sizeBytes > 0 && file.row.schemaVersion > 0
    && file.row.table != "" && file.row.bucket != "" && file.row.objectKey != "" && HexDigest(file.row.sha256)
  }

  /** The table has neither a file of this number nor one at this place. */
  ghost predicate Free(files: FileTable, commit: Id, file: FileEntry) {
    (commit, file.number) !in files && forall k :: k in files ==> Location(files[k]) != Location(file.row)
  }

  ghost predicate Storable(files: FileTable, commit: Id, entries: seq<FileEntry>) {
    && (forall i :: 0 <= i < |entries| ==> WellFormed(entries[i]) && Free(files, commit, entries[i]))
    && (forall i, j :: 0 <= i < j < |entries| ==>
          entries[i].number != entries[j].number && Location(entries[i].row) != Location(entries[j].row))
  }

  predicate Stored(files: FileTable, commit: Id, file: FileEntry) {
    (commit, file.number) in files && files[(commit, file.number)] == file.row
  }

  ghost predicate Numbered(entries: seq<FileEntry>, number: int) {
    exists i :: 0 <= i < |entries| && entries[i].number == number
  }

  /** These files of this commit were added, each under its number, and nothing else changed. */
  ghost predicate Added(files: FileTable, next: FileTable, commit: Id, entries: seq<FileEntry>) {
    && (forall i :: 0 <= i < |entries| ==> Stored(next, commit, entries[i]))
    && (forall k :: k in files ==> k in next && next[k] == files[k])
    && (forall k :: k in next ==> k in files || (k.0 == commit && Numbered(entries, k.1)))
  }

  /** Files are stored exactly when each is well formed and no number or place is taken
      twice, and then exactly they are. */
  lemma {:induction false} InsertsExactly(files: FileTable, commit: Id, entries: seq<FileEntry>)
    ensures InsertFiles(files, commit, entries).Some? <==> Storable(files, commit, entries)
    ensures InsertFiles(files, commit, entries).Some? ==> Added(files, InsertFiles(files, commit, entries).value, commit, entries)
    decreases |entries|
  {
    if entries != [] && FileInsertable(files, commit, entries[0]) {
      var first, rest := entries[0], entries[1..];
      var next := files[(commit, first.number) := first.row];
      InsertsExactly(next, commit, rest);
      FirstStorable(files, next, commit, entries);
      if Storable(next, commit, rest) { FirstAdded(files, next, InsertFiles(next, commit, rest).value, commit, entries); }
    }
  }

  lemma FirstStorable(files: FileTable, next: FileTable, commit: Id, entries: seq<FileEntry>)
    requires entries != [] && WellFormed(entries[0]) && Free(files, commit, entries[0])
    requires next == files[(commit, entries[0].number) := entries[0].row]
    ensures Storable(next, commit, entries[1..]) <==> Storable(files, commit, entries)
  {
    var first, rest := entries[0], entries[1..];
    forall i | 1 <= i < |entries| ensures entries[i] == rest[i - 1] {}
    forall i | 0 <= i < |rest|
      ensures Free(next, commit, rest[i]) <==>
              Free(files, commit, rest[i]) && rest[i].number != first.number && Location(rest[i].row) != Location(first.row)
    {
      assert (commit, first.number) in next;
      assert forall k :: k in files ==> k in next && next[k] == files[k];
    }
    if Storable(next, commit, rest) {
      forall i | 0 <= i < |entries| ensures WellFormed(entries[i]) && Free(files, commit, entries[i]) {
        if i > 0 { assert entries[i] == rest[i - 1]; }
      }
      forall i, j | 0 <= i < j < |entries|
        ensures entries[i].number != entries[j].number && Location(entries[i].row) != Location(entries[j].row)
      {
        assert entries[j] == rest[j - 1];
        if i > 0 { assert entries[i] == rest[i - 1]; }
      }
    }
    if Storable(files, commit, entries) {
      forall i | 0 <= i < |rest| ensures WellFormed(rest[i]) && Free(next, commit, rest[i]) { assert rest[i] == entries[i + 1]; }
    }
  }

  lemma FirstAdded(files: FileTable, next: FileTable, last: FileTable, commit: Id, entries: seq<FileEntry>)
    requires entries != [] && Free(files, commit, entries[0]) && next == files[(commit, entries[0].number) := entries[0].row]
    requires Added(next, last, commit, entries[1..])
    ensures Added(files, last, commit, entries)
  {
    var first, rest := entries[0], entries[1..];
    forall i | 0 <= i < |entries| ensures Stored(last, commit, entries[i]) {
      if i == 0 { assert (commit, first.number) in next; } else { assert entries[i] == rest[i - 1]; }
    }
    forall k | k in last ensures k in files || (k.0 == commit && Numbered(entries, k.1)) {
      if k == (commit, first.number) {
        assert entries[0].number == k.1;
      } else if k !in next {
        var i :| 0 <= i < |rest| && rest[i].number == k.1;
        assert entries[i + 1].number == k.1;
      }
    }
  }

  /* What a step does to the commits and their files. */

  /** Every file belongs to a commit, every commit has as many files as it says, and no
      place is named twice. */
  ghost predicate FilesOk(db: Tables) {
    && (forall k :: k in db.files ==> k.0 in db.commits)
    && (forall k, l :: k in db.files && l in db.files && Location(db.files[k]) == Location(db.files[l]) ==> k == l)
    && (forall c :: c in db.commits ==> CountRight(db, c))
  }

  ghost predicate CountRight(db: Tables, c: Id)
    requires c in db.commits
  {
    |Numbers(db, c)| == db.commits[c].fileCount
  }

  predicate Publishes(reply: Reply) { reply.Published? || reply.Imported? }

  /** What a publication puts in the tables for the files it was given. */
  ghost predicate Publication(db: Tables, next: Tables, commit: Id, recordCount: int, entries: seq<FileEntry>) {
    && commit !in db.commits && commit in next.commits && next.commits == db.commits[commit := next.commits[commit]]
    && next.commits[commit].recordCount == recordCount && next.commits[commit].fileCount == |entries|
    && Storable(db.files, commit, entries) && Added(db.files, next.files, commit, entries)
  }

  ghost predicate FileEffect(db: Tables, s: Step) {
    var next, reply := Next(db, s), ReplyTo(db, s);
    if Publishes(reply) then (s.Publish? || Imports(s)) && Publication(db, next, reply.commit, s.recordCount, s.files)
    else next.commits == db.commits && next.files == db.files
  }

  lemma StepFiles(db: Tables, s: Step)
    ensures FileEffect(db, s)
  {
    if s.Publish? {
      PublishFiles(db, s);
    } else if Imports(s) {
      ImportFiles(db, s);
    } else if s.Begin? {
      BeginFiles(db, s);
    }
  }

  lemma BeginFiles(db: Tables, s: Step)
    requires s.Begin?
    ensures BeginStep(db, s).0.commits == db.commits && BeginStep(db, s).0.files == db.files
    ensures !Publishes(BeginStep(db, s).1)
  {
  }

  lemma PublishFiles(db: Tables, s: Step)
    requires s.Publish?
    ensures FileEffect(db, s)
  {
    if PublishStep(db, s).1.Published? { InsertsExactly(db.files, s.newCommit, s.files); }
  }

  lemma ImportFiles(db: Tables, s: Step)
    requires Imports(s)
    ensures FileEffect(db, s)
  {
    var located := MetadataProtocol.Located(db, s.identity, s.newPartition, StartOf(s));
    if ImportStep(db, s).1.Imported? {
      var (p, db1) := located.value;
      ImportedFiles(db1, p, s.newAttempt, s.newCommit, s.recordCount, s.files, StartOf(s), EndOf(s));
    }
  }

  lemma ImportedFiles(db: Tables, p: Id, a: Id, c: Id, recordCount: int, files: seq<FileEntry>, startedAt: int, completedAt: int)
    ensures var imported := ImportedDay(db, p, a, c, recordCount, files, startedAt, completedAt);
            imported.Some? ==> Publication(db, imported.value, c, recordCount, files)
  {
    InsertsExactly(db.files, c, files);
  }

  /* The files of a commit, as a reader lists them. */

  /** The entries in the order of their numbers. */
  ghost predicate InNumberOrder(list: seq<FileEntry>, entries: seq<FileEntry>) {
    && |list| == |entries|
    && (forall i, j :: 0 <= i < j < |list| ==> list[i].number < list[j].number)
    && (forall f :: f in list <==> f in entries)
  }

  /** The files of the commit are these. */
  ghost predicate HasFiles(db: Tables, c: Id, entries: seq<FileEntry>) {
    && (forall i :: 0 <= i < |entries| ==> Stored(db.files, c, entries[i]))
    && (forall k :: k in db.files && k.0 == c ==> Numbered(entries, k.1))
    && (forall i, j :: 0 <= i < j < |entries| ==> entries[i].number != entries[j].number)
  }

  lemma ListedFiles(db: Tables, c: Id, f: FileEntry)
    ensures f in FilesOf(db, c) <==> Stored(db.files, c, f)
  {
    var numbers, list := Sorted(Numbers(db, c)), FilesOf(db, c);
    if Stored(db.files, c, f) {
      assert f.number in Numbers(db, c) by { assert (c, f.number) in db.files; }
      var i :| 0 <= i < |numbers| && numbers[i] == f.number;
      assert list[i] == f;
    }
    if f in list {
      var i :| 0 <= i < |list| && list[i] == f;
      assert numbers[i] in Numbers(db, c);
    }
  }

  /** The reader's list of a commit with these files. */
  lemma FilesInOrder(db: Tables, c: Id, entries: seq<FileEntry>)
    requires HasFiles(db, c, entries)
    ensures InNumberOrder(FilesOf(db, c), entries) && |Numbers(db, c)| == |entries|
  {
    var list := FilesOf(db, c);
    forall f ensures f in list <==> f in entries {
      ListedFiles(db, c, f);
      if Stored(db.files, c, f) {
        assert Numbered(entries, f.number) by { assert (c, f.number) in db.files; }
        var i :| 0 <= i < |entries| && entries[i].number == f.number;
        assert Stored(db.files, c, entries[i]);
      }
    }
    SameLength(list, entries);
    ListingSize(Sorted(Numbers(db, c)), Numbers(db, c));
  }

  lemma PublicationHasFiles(db: Tables, next: Tables, c: Id, recordCount: int, entries: seq<FileEntry>)
    requires FilesOk(db) && Publication(db, next, c, recordCount, entries)
    ensures HasFiles(next, c, entries)
  {
  }

  lemma OtherNumbers(db: Tables, next: Tables, c: Id, recordCount: int, entries: seq<FileEntry>, d: Id)
    requires Publication(db, next, c, recordCount, entries) && d != c
    ensures Numbers(next, d) == Numbers(db, d)
  {
    forall n ensures n in Numbers(next, d) <==> n in Numbers(db, d) {
      assert (d, n) in next.files <==> (d, n) in db.files;
    }
  }

  lemma PublicationKeepsFilesOk(db: Tables, next: Tables, c: Id, recordCount: int, entries: seq<FileEntry>)
    requires FilesOk(db) && Publication(db, next, c, recordCount, entries)
    ensures FilesOk(next)
  {
    forall d | d in next.commits ensures CountRight(next, d) {
      if d == c {
        PublicationHasFiles(db, next, c, recordCount, entries);
        FilesInOrder(next, c, entries);
      } else {
        assert CountRight(db, d);
        OtherNumbers(db, next, c, recordCount, entries, d);
      }
    }
    PlacesDistinct(db.files, next.files, c, entries);
  }

  lemma PlacesDistinct(files: FileTable, next: FileTable, c: Id, entries: seq<FileEntry>)
    requires Storable(files, c, entries) && Added(files, next, c, entries)
    requires forall k, l :: k in files && l in files && Location(files[k]) == Location(files[l]) ==> k == l
    ensures forall k, l :: k in next && l in next && Location(next[k]) == Location(next[l]) ==> k == l
  {
    forall k | k in next && k !in files ensures NewFile(files, next, c, entries, k) {
      var i :| 0 <= i < |entries| && entries[i].number == k.1;
      assert Stored(next, c, entries[i]) && Free(files, c, entries[i]);
    }
  }

  ghost predicate NewFile(files: FileTable, next: FileTable, c: Id, entries: seq<FileEntry>, k: (Id, int))
    requires k in next
  {
    && k.0 == c
    && (exists i :: 0 <= i < |entries| && entries[i].number == k.1 && next[k] == entries[i].row)
    && (forall l :: l in files ==> Location(files[l]) != Location(next[k]))
  }

  lemma StepKeepsFilesOk(db: Tables, s: Step)
    requires FilesOk(db)
    ensures FilesOk(Next(db, s))
  {
    StepFiles(db, s);
    var next, reply := Next(db, s), ReplyTo(db, s);
    if Publishes(reply) {
      PublicationKeepsFilesOk(db, next, reply.commit, s.recordCount, s.files);
    } else {
      forall c | c in next.commits ensures CountRight(next, c) {
        assert CountRight(db, c);
        assert Numbers(next, c) == Numbers(db, c);
      }
    }
  }

  /* Over whole runs. */

  lemma {:induction false} RunKeepsFilesOk(db: Tables, steps: seq<Step>)
    requires FilesOk(db)
    ensures FilesOk(Run(db, steps))
    decreases |steps|
  {
    if steps != [] {
      StepKeepsFilesOk(db, steps[0]);
      RunKeepsFilesOk(Next(db, steps[0]), steps[1..]);
    }
  }

  /** In every reachable state each commit has the number of files it says, each file
      belongs to a commit, and no two files lie at one place. */
  lemma ReachableFilesOk(steps: seq<Step>)
    ensures FilesOk(Run(EMPTY, steps))
  {
    RunKeepsFilesOk(EMPTY, steps);
  }

  /** The commit, its row and its files are as they were. */
  ghost predicate CommitKept(db: Tables, next: Tables, c: Id)
    requires c in db.commits
  {
    && c in next.commits && next.commits[c] == db.commits[c]
    && forall n :: SameFile(db, next, c, n)
  }

  predicate SameFile(db: Tables, next: Tables, c: Id, n: int) {
    ((c, n) in next.files <==> (c, n) in db.files) && ((c, n) in db.files ==> next.files[(c, n)] == db.files[(c, n)])
  }

  lemma StepKeepsCommit(db: Tables, s: Step, c: Id)
    requires c in db.commits
    ensures CommitKept(db, Next(db, s), c)
  {
    StepFiles(db, s);
    forall n ensures SameFile(db, Next(db, s), c, n) {
      assert (c, n) in db.files ==> (c, n) in Next(db, s).files;
    }
  }

  /** No run ever changes a commit or its files. */
  lemma {:induction false} CommitsAreKept(db: Tables, steps: seq<Step>, c: Id)
    requires c in db.commits
    ensures CommitKept(db, Run(db, steps), c)
    decreases |steps|
  {
    if steps != [] {
      var next := Next(db, steps[0]);
      StepKeepsCommit(db, steps[0], c);
      CommitsAreKept(next, steps[1..], c);
      assert Run(db, steps) == Run(next, steps[1..]);
      forall n ensures SameFile(db, Run(db, steps), c, n) {
        assert SameFile(db, next, c, n) && SameFile(next, Run(next, steps[1..]), c, n);
      }
    }
  }

  /** The commit holds these files, under these counts, and a reader lists them by number. */
  ghost predicate Holding(db: Tables, c: Id, recordCount: int, entries: seq<FileEntry>) {
    && c in db.commits && db.commits[c].recordCount == recordCount && db.commits[c].fileCount == |entries|
    && HasFiles(db, c, entries) && InNumberOrder(FilesOf(db, c), entries)
  }

  lemma KeptHolding(db: Tables, next: Tables, c: Id, recordCount: int, entries: seq<FileEntry>)
    requires c in db.commits && db.commits[c].recordCount == recordCount && db.commits[c].fileCount == |entries|
    requires HasFiles(db, c, entries) && CommitKept(db, next, c)
    ensures Holding(next, c, recordCount, entries)
  {
    forall i | 0 <= i < |entries| ensures Stored(next.files, c, entries[i]) {
      assert Stored(db.files, c, entries[i]) && SameFile(db, next, c, entries[i].number);
    }
    forall k | k in next.files && k.0 == c ensures Numbered(entries, k.1) {
      assert k == (c, k.1);
      assert SameFile(db, next, c, k.1);
    }
    FilesInOrder(next, c, entries);
  }

  /** A publication or an import, in any reachable state, stores under a new commit exactly
      the files it was given; they are that commit's files in every later state. Every
      other commit keeps its own. */
  lemma PublishedFilesStay(steps: seq<Step>, s: Step, later: seq<Step>)
    requires Publishes(ReplyTo(Run(EMPTY, steps), s))
    ensures var db, c := Run(EMPTY, steps), ReplyTo(Run(EMPTY, steps), s).commit;
            && (s.Publish? || Imports(s)) && c !in db.commits
            && Holding(Run(Next(db, s), later), c, s.recordCount, s.files)
            && (forall d :: d in db.commits ==> CommitKept(db, Run(Next(db, s), later), d))
  {
    var db := Run(EMPTY, steps);
    var next, c := Next(db, s), ReplyTo(db, s).commit;
    ReachableFilesOk(steps);
    StepFiles(db, s);
    PublicationHasFiles(db, next, c, s.recordCount, s.files);
    CommitsAreKept(next, later, c);
    KeptHolding(next, Run(next, later), c, s.recordCount, s.files);
    forall d | d in db.commits ensures CommitKept(db, Run(next, later), d) {
      CommitsAreKept(db, [s] + later, d);
      assert ([s] + later)[1..] == later;
    }
  }

  /* What a snapshot shows. */

  /** The identity's partition has a head. */
  ghost predicate HasHead(db: Tables, x: Identity) {
    exists p :: p in db.partitions && db.partitions[p].identity == x && db.partitions[p].current.Some?
  }

  ghost function WithHeads(db: Tables, identities: seq<Identity>): seq<Identity> {
    if identities == [] then []
    else WithHeads(db, identities[..|identities| - 1])
         + (if HasHead(db, identities[|identities| - 1]) then [identities[|identities| - 1]] else [])
  }

  /** The view is of the partition of `x`, of its head, with exactly the files of that commit. */
  ghost predicate Shows(db: Tables, v: View, x: Identity) {
    && v.partition in db.partitions && v.row == db.partitions[v.partition] && v.row.identity == x
    && v.row.current == Some(v.commit.id) && v.commit.id in db.commits
    && v.commit.header == db.commits[v.commit.id]
    && HasFiles(db, v.commit.id, v.commit.files) && InNumberOrder(v.commit.files, v.commit.files)
  }

  ghost predicate ShowsAll(db: Tables, views: seq<View>, xs: seq<Identity>) {
    |views| == |xs| && forall i :: 0 <= i < |views| ==> Shows(db, views[i], xs[i])
  }

  lemma ViewShows(db: Tables, x: Identity)
    requires IdentityUnique(db) && HeadsOk(db)
    ensures ShowsAll(db, ViewOf(db, FindPartition(db, x)), if HasHead(db, x) then [x] else [])
  {
    var found := FindPartition(db, x);
    if p :| p in db.partitions && db.partitions[p].identity == x && db.partitions[p].current.Some? {
      assert found == Some(p);
      var c := db.partitions[p].current.value;
      assert CommitOfPartition(db, p, Some(c));
      var list, numbers := FilesOf(db, c), Sorted(Numbers(db, c));
      forall i | 0 <= i < |list| ensures Stored(db.files, c, list[i]) { assert list[i] in list; ListedFiles(db, c, list[i]); }
      forall k | k in db.files && k.0 == c ensures Numbered(list, k.1) {
        var f := FileEntry(k.1, db.files[k]);
        assert k == (c, k.1);
        ListedFiles(db, c, f);
        assert f in list;
      }
    }
  }

  /** A snapshot has one view for each identity asked that has a head, in the order asked,
      and each shows the head with exactly its files by number. */
  lemma {:induction false} SnapshotShows(db: Tables, identities: seq<Identity>)
    requires IdentityUnique(db) && HeadsOk(db)
    ensures ShowsAll(db, Snapshot(db, identities), WithHeads(db, identities))
  {
    if identities != [] {
      var n := |identities| - 1;
      SnapshotShows(db, identities[..n]);
      ViewShows(db, identities[n]);
    }
  }

  /** Whenever a published commit is the head its partition's snapshot shows, the view has
      exactly the files and counts it was published with. */
  lemma SnapshotOfPublished(steps: seq<Step>, s: Step, later: seq<Step>, identities: seq<Identity>)
    requires Publishes(ReplyTo(Run(EMPTY, steps), s))
    ensures var c, now := ReplyTo(Run(EMPTY, steps), s).commit, Run(Next(Run(EMPTY, steps), s), later);
            && ShowsAll(now, Snapshot(now, identities), WithHeads(now, identities))
            && forall v :: v in Snapshot(now, identities) && v.commit.id == c ==>
                 && v.commit.header.recordCount == s.recordCount && v.commit.header.fileCount == |s.files|
                 && InNumberOrder(v.commit.files, s.files)
  {
    var db := Run(EMPTY, steps);
    var now := Run(Next(db, s), later);
    ReachableInv(steps);
    StepKeepsInv(db, s);
    RunKeepsInv(Next(db, s), later);
    SnapshotShows(now, identities);
    PublishedFilesStay(steps, s, later);
    forall v | v in Snapshot(now, identities) && v.commit.id == ReplyTo(db, s).commit
      ensures v.commit.header.recordCount == s.recordCount && InNumberOrder(v.commit.files, s.files)
    {
      SameFiles(now, v.commit.id, v.commit.files, s.files);
    }
  }

  lemma {:induction false} HeadsListed(db: Tables, identities: seq<Identity>, x: Identity)
    requires x in identities && HasHead(db, x)
    ensures x in WithHeads(db, identities)
  {
    var n := |identities| - 1;
    if x != identities[n] {
      assert x in identities[..n];
      HeadsListed(db, identities[..n], x);
    }
  }

  /** A snapshot taken right after a publication shows the new commit, with exactly the
      files and counts of the request, for its partition's identity. */
  lemma PublishedIsShown(steps: seq<Step>, s: Step, identities: seq<Identity>, x: Identity)
    requires Publishes(ReplyTo(Run(EMPTY, steps), s)) && x in identities
    requires var next, p := Next(Run(EMPTY, steps), s), ReplyTo(Run(EMPTY, steps), s).partition;
             p in next.partitions && next.partitions[p].identity == x
    ensures var next, reply := Next(Run(EMPTY, steps), s), ReplyTo(Run(EMPTY, steps), s);
            exists v :: v in Snapshot(next, identities) && v.partition == reply.partition && v.row.identity == x
              && v.commit.id == reply.commit && v.commit.header.recordCount == s.recordCount
              && v.commit.header.fileCount == |s.files| && InNumberOrder(v.commit.files, s.files)
  {
    var db := Run(EMPTY, steps);
    var next, reply := Next(db, s), ReplyTo(db, s);
    ReachableInv(steps);
    StepKeepsInv(db, s);
    assert Appended(db, next, reply.partition, reply.commit);
    SnapshotOfPublished(steps, s, [], identities);
    HeadsListed(next, identities, x);
    var i :| 0 <= i < |WithHeads(next, identities)| && WithHeads(next, identities)[i] == x;
    var v := Snapshot(next, identities)[i];
    assert Shows(next, v, x) && v in Snapshot(next, identities);
  }

  /** The files of a commit are one list, whatever order they were given in. */
  lemma SameFiles(db: Tables, c: Id, a: seq<FileEntry>, b: seq<FileEntry>)
    requires HasFiles(db, c, a) && HasFiles(db, c, b) && InNumberOrder(a, a)
    ensures InNumberOrder(a, b)
  {
    OneWay(db, c, a, b);
    OneWay(db, c, b, a);
    SameLength(a, b);
  }

  lemma OneWay(db: Tables, c: Id, a: seq<FileEntry>, b: seq<FileEntry>)
    requires HasFiles(db, c, a) && HasFiles(db, c, b)
    ensures forall f :: f in a ==> f in b
  {
    forall f | f in a ensures f in b {
      var i :| 0 <= i < |a| && a[i] == f;
      assert Stored(db.files, c, a[i]);
      assert (c, f.number) in db.files;
      var j :| 0 <= j < |b| && b[j].number == f.number;
      assert Stored(db.files, c, b[j]);
    }
  }
}
