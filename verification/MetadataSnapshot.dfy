/** `get_snapshot_for_partitions`: its chunked batch branch answers exactly as its
    one-by-one branch does, for every list of identities. */
module MetadataSnapshot {
  import opened Wrappers
  import opened MetadataTables
  import opened MetadataProtocol
  import opened MetadataHistory

  datatype CommitRecord = CommitRecord(id: Id, header: CommitRow, files: seq<FileEntry>)

  datatype View = View(partition: Id, row: PartitionRow, commit: CommitRecord)

  const CHUNK := 500
  const FEW := 5

  lemma Inhabited<T>(s: set<T>) returns (x: T)
    requires s != {}
    ensures x in s
  {
    x :| x in s;
  }

  /* Rows in file order. */

  lemma {:induction false} Least(s: set<int>) returns (m: int)
    requires s != {}
    ensures m in s && forall x :: x in s ==> m <= x
    decreases s
  {
    var first := Inhabited(s);
    m := first;
    if s - {first} != {} {
      var least := Least(s - {first});
      m := if least < first then least else first;
    }
    forall x | x in s ensures m <= x {
      if x != first { assert x in s - {first}; }
    }
  }

  lemma LeastExists(s: set<int>)
    requires s != {}
    ensures exists m :: m in s && forall x :: x in s ==> m <= x
  {
    var m := Least(s);
  }

  /** A finite set of numbers in increasing order. */
  function Sorted(s: set<int>): (r: seq<int>)
    ensures forall x :: x in r <==> x in s
    ensures forall i, j :: 0 <= i < j < |r| ==> r[i] < r[j]
    decreases |s|
  {
    if s == {} then [] else
      LeastExists(s);
      var m :| m in s && forall x :: x in s ==> m <= x;
      assert |s - {m}| < |s|;
      [m] + Sorted(s - {m})
  }

  function Numbers(db: Tables, commit: Id): set<int> {
    set k | k in db.files && k.0 == commit :: k.1
  }

  /** The files of a commit, ordered by file number. */
  function FilesOf(db: Tables, commit: Id): seq<FileEntry> {
    var numbers := Sorted(Numbers(db, commit));
    seq(|numbers|, i requires 0 <= i < |numbers| =>
      assert numbers[i] in Numbers(db, commit);
      FileEntry(numbers[i], db.files[(commit, numbers[i])]))
  }

  /* The one-by-one branch. */

  function RecordOf(db: Tables, commit: Id): Option<CommitRecord> {
    if commit in db.commits then Some(CommitRecord(commit, db.commits[commit], FilesOf(db, commit))) else None
  }

  /** The view of a partition with a head; `get_partition_by_identity` then `get_commit_by_id`. */
  function ViewOf(db: Tables, found: Option<Id>): seq<View> {
    var current := CurrentOf(db, found);
    if current.Some? && current.value in db.commits then
      [View(found.value, db.partitions[found.value], RecordOf(db, current.value).value)]
    else []
  }

  /** What a snapshot of `identities` is: the views of those that have one, in the
      order asked and with repetitions. */
  ghost function Snapshot(db: Tables, identities: seq<Identity>): seq<View> {
    if identities == [] then []
    else Snapshot(db, identities[..|identities| - 1]) + ViewOf(db, FindPartition(db, identities[|identities| - 1]))
  }

  lemma SnapshotStep(db: Tables, identities: seq<Identity>, i: nat)
    requires i < |identities|
    ensures Snapshot(db, identities[..i + 1]) == Snapshot(db, identities[..i]) + ViewOf(db, FindPartition(db, identities[i]))
  {
    assert identities[..i + 1][..i] == identities[..i];
  }

  /* Query results. Only the file query orders its rows. */

  method SelectPartitions(db: Tables, chunk: seq<Identity>) returns (rows: seq<Id>)
    ensures forall p :: p in rows <==> p in db.partitions && db.partitions[p].identity in chunk
  {
    rows := [];
    var rest := db.partitions.Keys;
    while rest != {}
      invariant rest <= db.partitions.Keys
      invariant forall p :: p in rows <==> p in db.partitions && p !in rest && db.partitions[p].identity in chunk
      decreases |rest|
    {
      ghost var some := Inhabited(rest);
      var p: Id :| p in rest;
      if db.partitions[p].identity in chunk {
        rows := rows + [p];
      }
      rest := rest - {p};
    }
  }

  /** The rows of one commit in the file query. */
  function Tagged<T>(commit: Id, files: seq<T>): (r: seq<(Id, T)>) {
    if files == [] then [] else [(commit, files[0])] + Tagged(commit, files[1..])
  }

  /** ORDER BY commit_id, file_number. */
  function SelectFiles(db: Tables, commits: seq<Id>): seq<(Id, FileEntry)> {
    if commits == [] then []
    else Tagged(commits[0], FilesOf(db, commits[0])) + SelectFiles(db, commits[1..])
  }

  /** What the rows append to the list of one commit. */
  function Appends<T>(rows: seq<(Id, T)>, commit: Id): seq<T> {
    if rows == [] then []
    else Appends(rows[..|rows| - 1], commit) + (if rows[|rows| - 1].0 == commit then [rows[|rows| - 1].1] else [])
  }

  lemma {:induction false} AppendsSplit<T>(a: seq<(Id, T)>, b: seq<(Id, T)>, commit: Id)
    ensures Appends(a + b, commit) == Appends(a, commit) + Appends(b, commit)
    decreases |b|
  {
    if b == [] {
      assert a + b == a;
    } else {
      var n := |b| - 1;
      assert (a + b)[..|a + b| - 1] == a + b[..n];
      assert (a + b)[|a + b| - 1] == b[n];
      AppendsSplit(a, b[..n], commit);
    }
  }

  lemma {:induction false} AppendsTagged<T>(c: Id, files: seq<T>, commit: Id)
    ensures Appends(Tagged(c, files), commit) == if c == commit then files else []
  {
    if files != [] {
      AppendsTagged(c, files[1..], commit);
      AppendsSplit([(c, files[0])], Tagged(c, files[1..]), commit);
      assert [(c, files[0])][..0] == [];
    }
  }

  /** Collecting the ordered rows per commit gives each commit its own files. */
  lemma {:induction false} SelectFilesPerCommit(db: Tables, commits: seq<Id>, commit: Id)
    requires forall i, j :: 0 <= i < j < |commits| ==> commits[i] != commits[j]
    ensures Appends(SelectFiles(db, commits), commit) == if commit in commits then FilesOf(db, commit) else []
  {
    if commits != [] {
      AppendsSplit(Tagged(commits[0], FilesOf(db, commits[0])), SelectFiles(db, commits[1..]), commit);
      AppendsTagged(commits[0], FilesOf(db, commits[0]), commit);
      SelectFilesPerCommit(db, commits[1..], commit);
    }
  }

  /* The batch branch, loop by loop. */

  ghost predicate Located(db: Tables, located: map<Identity, Id>) {
    forall x :: x in located ==> FindPartition(db, x) == Some(located[x])
  }

  lemma FoundByIdentity(db: Tables, p: Id)
    requires IdentityUnique(db) && p in db.partitions
    ensures FindPartition(db, db.partitions[p].identity) == Some(p)
  {
  }

  /** Resolve identities chunk by chunk. */
  method ResolvePartitions(db: Tables, identities: seq<Identity>) returns (located: map<Identity, Id>)
    requires IdentityUnique(db)
    ensures Located(db, located)
    ensures forall x :: x in identities ==> (x in located <==> FindPartition(db, x).Some?)
  {
    located := map[];
    var i := 0;
    while i < |identities|
      invariant 0 <= i <= |identities|
      invariant Located(db, located)
      invariant forall x :: x in identities[..i] ==> (x in located <==> FindPartition(db, x).Some?)
    {
      var end := if i + CHUNK < |identities| then i + CHUNK else |identities|;
      var rows := SelectPartitions(db, identities[i..end]);
      var before := located;
      for r := 0 to |rows|
        invariant Located(db, located)
        invariant forall x :: x in before ==> x in located
        invariant forall k :: 0 <= k < r ==> rows[k] in db.partitions && db.partitions[rows[k]].identity in located
      {
        assert rows[r] in rows;
        FoundByIdentity(db, rows[r]);
        located := located[db.partitions[rows[r]].identity := rows[r]];
      }
      forall x | x in identities[..end] ensures x in located <==> FindPartition(db, x).Some? {
        if x in identities[i..end] {
          var found := FindPartition(db, x);
          if found.Some? {
            assert found.value in rows;
          }
        } else {
          assert x in identities[..i];
        }
      }
      i := end;
    }
  }

  /** One chunk of commits: append each file row to its commit's list. */
  method CollectFiles(files: map<Id, seq<FileEntry>>, rows: seq<(Id, FileEntry)>) returns (collected: map<Id, seq<FileEntry>>)
    requires forall k :: 0 <= k < |rows| ==> rows[k].0 in files
    ensures collected.Keys == files.Keys
    ensures forall c :: c in files ==> collected[c] == files[c] + Appends(rows, c)
  {
    collected := files;
    for r := 0 to |rows|
      invariant collected.Keys == files.Keys
      invariant forall c :: c in files ==> collected[c] == files[c] + Appends(rows[..r], c)
    {
      assert rows[..r + 1][..r] == rows[..r];
      collected := collected[rows[r].0 := collected[rows[r].0] + [rows[r].1]];
    }
    assert rows[..|rows|] == rows;
  }

  lemma {:induction false} SelectedFilesBelong(db: Tables, commits: seq<Id>, k: nat)
    requires k < |SelectFiles(db, commits)|
    ensures SelectFiles(db, commits)[k].0 in commits
  {
    var first := Tagged(commits[0], FilesOf(db, commits[0]));
    TaggedBelong(commits[0], FilesOf(db, commits[0]));
    if k >= |first| {
      SelectedFilesBelong(db, commits[1..], k - |first|);
    }
  }

  lemma {:induction false} TaggedBelong<T>(c: Id, files: seq<T>)
    ensures forall k :: 0 <= k < |Tagged(c, files)| ==> Tagged(c, files)[k].0 == c
  {
    if files != [] { TaggedBelong(c, files[1..]); }
  }

  /** Append the files of one chunk of commits to the lists. */
  method CollectChunk(db: Tables, files: map<Id, seq<FileEntry>>, chunk: seq<Id>) returns (collected: map<Id, seq<FileEntry>>)
    requires forall c :: c in chunk ==> c in files && files[c] == []
    ensures collected.Keys == files.Keys
    ensures forall c :: c in files ==> collected[c] == if c in chunk then FilesOf(db, c) else files[c]
  {
    var ordered := Sorted(set c | c in chunk);
    var rows := SelectFiles(db, ordered);
    forall k | 0 <= k < |rows| ensures rows[k].0 in files { SelectedFilesBelong(db, ordered, k); }
    collected := CollectFiles(files, rows);
    forall c | c in files ensures collected[c] == if c in chunk then FilesOf(db, c) else files[c] {
      SelectFilesPerCommit(db, ordered, c);
      assert c in ordered <==> c in chunk;
    }
  }

  /** Add the records of one chunk of commits whose files are collected. */
  method RecordChunk(db: Tables, files: map<Id, seq<FileEntry>>, chunk: seq<Id>, records: map<Id, CommitRecord>)
    returns (recorded: map<Id, CommitRecord>)
    requires forall k :: 0 <= k < |chunk| ==> chunk[k] in files && files[chunk[k]] == FilesOf(db, chunk[k])
    requires forall c :: c in records ==> RecordOf(db, c) == Some(records[c])
    ensures forall c :: c in recorded ==> RecordOf(db, c) == Some(recorded[c])
    ensures forall c :: c in recorded <==> c in records || (c in chunk && c in db.commits)
  {
    recorded := records;
    for r := 0 to |chunk|
      invariant forall c :: c in recorded ==> RecordOf(db, c) == Some(recorded[c])
      invariant forall c :: c in recorded <==> c in records || (c in chunk[..r] && c in db.commits)
    {
      assert chunk[..r + 1] == chunk[..r] + [chunk[r]];
      assert chunk[r] in chunk;
      if chunk[r] in db.commits {
        recorded := recorded[chunk[r] := CommitRecord(chunk[r], db.commits[chunk[r]], files[chunk[r]])];
      }
    }
    assert chunk[..|chunk|] == chunk;
  }

  /** Resolve the head commits with their files, chunk by chunk. */
  method ResolveCommits(db: Tables, commits: seq<Id>) returns (records: map<Id, CommitRecord>)
    requires forall i, j :: 0 <= i < j < |commits| ==> commits[i] != commits[j]
    ensures forall k :: 0 <= k < |commits| ==> (commits[k] in records <==> commits[k] in db.commits)
    ensures forall c :: c in records ==> RecordOf(db, c) == Some(records[c])
  {
    records := map[];
    var files: map<Id, seq<FileEntry>> := map c | c in commits :: [];
    var i := 0;
    while i < |commits|
      invariant 0 <= i <= |commits|
      invariant files.Keys == set c | c in commits
      invariant forall k :: i <= k < |commits| ==> files[commits[k]] == []
      invariant forall c :: c in records ==> RecordOf(db, c) == Some(records[c])
      invariant forall k :: 0 <= k < i ==> (commits[k] in records <==> commits[k] in db.commits)
    {
      var end := if i + CHUNK < |commits| then i + CHUNK else |commits|;
      var chunk := commits[i..end];
      forall c | c in chunk ensures c in files && files[c] == [] {
        var k :| 0 <= k < |chunk| && chunk[k] == c;
        assert c == commits[i + k];
      }
      files := CollectChunk(db, files, chunk);
      forall k | 0 <= k < |chunk| ensures chunk[k] in files && files[chunk[k]] == FilesOf(db, chunk[k]) {
        assert chunk[k] == commits[i + k] && chunk[k] in commits;
      }
      records := RecordChunk(db, files, chunk, records);
      forall k | end <= k < |commits| ensures files[commits[k]] == [] {
        assert commits[k] !in chunk;
      }
      forall k | i <= k < end ensures commits[k] in chunk { assert commits[k] == chunk[k - i]; }
      i := end;
    }
  }

  /** `list(set(...))`: the elements once each, in an order of its own. */
  method ListOf<T(==)>(elements: set<T>) returns (list: seq<T>)
    ensures forall c :: c in list <==> c in elements
    ensures forall i, j :: 0 <= i < j < |list| ==> list[i] != list[j]
  {
    list := [];
    var rest := elements;
    while rest != {}
      invariant rest <= elements
      invariant forall c :: c in list <==> c in elements && c !in rest
      invariant forall i, j :: 0 <= i < j < |list| ==> list[i] != list[j]
      decreases |rest|
    {
      ghost var some := Inhabited(rest);
      var c :| c in rest;
      list := list + [c];
      rest := rest - {c};
    }
  }

  /** The snapshot query: one by one for up to five identities, else in chunks. */
  method GetSnapshot(db: Tables, identities: seq<Identity>) returns (views: seq<View>)
    requires IdentityUnique(db)
    ensures views == Snapshot(db, identities)
  {
    if |identities| <= FEW {
      views := OneByOne(db, identities);
    } else {
      views := InChunks(db, identities);
    }
  }

  method OneByOne(db: Tables, identities: seq<Identity>) returns (views: seq<View>)
    requires IdentityUnique(db)
    ensures views == Snapshot(db, identities)
  {
    views := [];
    for i := 0 to |identities|
      invariant views == Snapshot(db, identities[..i])
    {
      SnapshotStep(db, identities, i);
      if p :| p in db.partitions && db.partitions[p].identity == identities[i] {
        views := views + ViewOf(db, Some(p));
      }
    }
    assert identities[..|identities|] == identities;
  }

  method InChunks(db: Tables, identities: seq<Identity>) returns (views: seq<View>)
    requires IdentityUnique(db)
    ensures views == Snapshot(db, identities)
  {
    var located := ResolvePartitions(db, identities);
    var heads := set x | x in located && CurrentOf(db, Some(located[x])).Some? :: CurrentOf(db, Some(located[x])).value;
    var commits := ListOf(heads);
    var records := ResolveCommits(db, commits);
    views := [];
    for i := 0 to |identities|
      invariant views == Snapshot(db, identities[..i])
    {
      SnapshotStep(db, identities, i);
      var x := identities[i];
      assert x in located <==> FindPartition(db, x).Some?;
      if x in located {
        var current := CurrentOf(db, Some(located[x]));
        if current.Some? {
          assert current.value in heads;
          ghost var k :| 0 <= k < |commits| && commits[k] == current.value;
          if current.value in records {
            views := views + [View(located[x], db.partitions[located[x]], records[current.value])];
          }
        }
      }
    }
    assert identities[..|identities|] == identities;
  }
}
