/** What has been written of a planned day's candidates, in the store or still under way,
    and which later writes leave a commit alone. */
module CommitBooks {
  import opened Wrappers
  import opened Collections
  import opened Control
  import opened Coverage
  import opened Archive
  import opened CompactedDay

  /** One write of a day marker, as it was sent. */
  datatype MarkerWrite = MarkerWrite(run: RunId, status: Status)

  /** A write that may still arrive. */
  datatype Write = Write(key: Key, value: Object)

  datatype Progress = Working | CommitUncertain | Finished | GivenUp | NoBenefit

  /** The receipt: the candidate, how far it came and, from the commit on, its files. */
  datatype Checkpoint = Checkpoint(plan: string, run: RunId, progress: Progress, outputs: Store)

  predicate Sent(sent: seq<MarkerWrite>, run: RunId, status: Status) {
    MarkerWrite(run, status) in sent
  }

  /** Just one marker more was sent. */
  ghost predicate SentMore(before: seq<MarkerWrite>, after: seq<MarkerWrite>, run: RunId, status: Status) {
    forall r, s :: Sent(after, r, s) <==> Sent(before, r, s) || (r == run && s == status)
  }

  /** No run is ever sent both a failure and a success. */
  ghost predicate OneVerdict(sent: seq<MarkerWrite>) {
    forall r :: !(Sent(sent, r, Success) && Sent(sent, r, Failed))
  }

  /** A candidate whose commit was sent is the one the checkpoint holds fast. */
  ghost predicate Held(sent: seq<MarkerWrite>, checkpoint: Option<Checkpoint>) {
    forall r :: Sent(sent, r, Success) ==>
      checkpoint.Some? && checkpoint.value.run == r
      && (checkpoint.value.progress == CommitUncertain || checkpoint.value.progress == Finished)
  }

  /** Once a commit was sent, no marker is ever sent again, of any candidate. */
  ghost predicate CommitIsLast(sent: seq<MarkerWrite>) {
    forall i :: 0 <= i < |sent| - 1 ==> sent[i].status != Success
  }

  lemma AppendLast(sent: seq<MarkerWrite>, w: MarkerWrite)
    ensures Uncommitted(sent) ==> CommitIsLast(sent + [w])
  {
    if Uncommitted(sent) {
      forall i | 0 <= i < |sent| ensures sent[i].status != Success { assert !Sent(sent, sent[i].run, Success); }
    }
  }

  /** So at most one candidate is ever sent a commit, and no failure follows one. */
  lemma BarrierMeaning(sent: seq<MarkerWrite>)
    requires CommitIsLast(sent)
    ensures forall r, q :: Sent(sent, r, Success) && Sent(sent, q, Success) ==> r == q
    ensures forall i, j :: 0 <= i < j < |sent| ==> !(sent[i].status == Success && sent[j].status == Failed)
  {
  }

  /** No commit was sent yet. */
  ghost predicate Uncommitted(sent: seq<MarkerWrite>) {
    forall r :: !Sent(sent, r, Success)
  }

  /* The candidate's own writes, in the store or still under way. */

  /** A marker of the planned day. */
  predicate OfDay(item: Item, k: Key) {
    k.DayKey? && k.resource == item.baseline.resource && k.date == item.baseline.date
  }

  /** Headers are of the day, and markers among those sent; a commit is the one sent. */
  ghost predicate OwnObject(item: Item, sent: seq<MarkerWrite>, commit: Option<DayManifest>, k: Key, o: Object) {
    && KeyFits(k, o.content) && (k.RunKey? ==> OwnHeader(item, o.content.run))
    && (OfDay(item, k) ==> Sent(sent, k.run, o.content.day.status)
                           && (o.content.day.status == Success ==> commit == Some(o.content.day)))
  }

  /** Once a commit was sent all but its marker is in place, and of the candidate only
      headers that close it and that marker may still arrive. */
  ghost predicate CommitHolds(item: Item, fs: Store, inflight: set<Write>, drawn: set<RunId>, sent: seq<MarkerWrite>,
                              day: DayManifest)
    requires WellKeyed(fs)
  {
    && day.runId in drawn && Sent(sent, day.runId, Success) && Vouched(fs, item, day) && Documented(fs, item, day)
    && forall w :: w in inflight && w.key.run == day.runId ==>
         (w.key.RunKey? && w.value.content.Run? && w.value.content.run.status == RunSuccess) || w == CommitWrite(day)
  }

  function CommitWrite(day: DayManifest): Write {
    Write(DayKey(day.resource, day.runId, day.date), Written(Day(day)))
  }

  ghost predicate Books(item: Item, fs: Store, inflight: set<Write>, drawn: set<RunId>, sent: seq<MarkerWrite>,
                        commit: Option<DayManifest>)
  {
    && WellKeyed(fs) && item.baseline.runId !in drawn
    && (forall k :: k in fs && k.run in drawn ==> OwnObject(item, sent, commit, k, fs[k]))
    && (forall w :: w in inflight ==> w.key.run in drawn && OwnObject(item, sent, commit, w.key, w.value))
    && (forall r, s :: Sent(sent, r, s) ==> r in drawn)
    && (commit.None? ==> Uncommitted(sent))
    && (commit.Some? ==> CommitHolds(item, fs, inflight, drawn, sent, commit.value))
  }

  /** The candidate's files, once its commit was sent. */
  function FilesOf(fs: Store, commit: Option<DayManifest>): Store {
    if commit.Some? then Inventory(fs, EntryOf(commit.value)) else map[]
  }

  /** The committed candidate is closed as a success. */
  predicate Closed(fs: Store, commit: Option<DayManifest>)
    requires WellKeyed(fs)
  {
    && commit.Some?
    && var header := ReadRun(fs, commit.value.resource, commit.value.runId);
       header.Some? && header.value.status == RunSuccess && header.value.successDates == header.value.totalDates == 1
       && header.value.failedDates == 0
  }

  /** The commit is in the store. */
  predicate Landed(fs: Store, commit: Option<DayManifest>)
    requires WellKeyed(fs)
  {
    commit.Some? && HasDay(fs, commit.value.resource, commit.value)
  }

  /** What was sent and what the checkpoint holds agree. */
  ghost predicate Recorded(plan: string, drawn: set<RunId>, sent: seq<MarkerWrite>, commit: Option<DayManifest>, files: Store,
                           checkpoint: Option<Checkpoint>)
  {
    && OneVerdict(sent) && Held(sent, checkpoint) && CommitIsLast(sent)
    && (checkpoint.Some? ==> checkpoint.value.run in drawn)
    && (commit.Some? ==> checkpoint.Some? && checkpoint.value.plan == plan && checkpoint.value.outputs == files)
  }

  /** Before a commit the checkpoint may say anything of a drawn run. */
  lemma RecordedAgain(item: Item, plan: string, fs: Store, inflight: set<Write>, drawn: set<RunId>, sent: seq<MarkerWrite>,
                      checkpoint: Option<Checkpoint>, next: Checkpoint)
    requires Books(item, fs, inflight, drawn, sent, None) && Recorded(plan, drawn, sent, None, map[], checkpoint)
    requires next.run in drawn
    ensures Recorded(plan, drawn, sent, None, map[], Some(next))
  {
  }

  /** One more marker before a commit. */
  lemma RecordedMarker(item: Item, plan: string, fs: Store, inflight: set<Write>, drawn: set<RunId>, sent: seq<MarkerWrite>,
                       checkpoint: Option<Checkpoint>, w: MarkerWrite)
    requires Books(item, fs, inflight, drawn, sent, None) && Recorded(plan, drawn, sent, None, map[], checkpoint)
    requires w.status != Success
    ensures Recorded(plan, drawn, sent + [w], None, map[], checkpoint) && Uncommitted(sent + [w])
    ensures SentMore(sent, sent + [w], w.run, w.status) && Sent(sent + [w], w.run, w.status)
  {
    AppendLast(sent, w);
    SentAdded(sent, w);
  }

  /** The commit, of the run the checkpoint names. */
  lemma RecordedCommit(item: Item, plan: string, fs: Store, inflight: set<Write>, drawn: set<RunId>, sent: seq<MarkerWrite>,
                       checkpoint: Option<Checkpoint>, day: DayManifest, files: Store)
    requires Books(item, fs, inflight, drawn, sent, None) && Recorded(plan, drawn, sent, None, map[], checkpoint)
    requires checkpoint == Some(Checkpoint(plan, day.runId, CommitUncertain, files)) && !Sent(sent, day.runId, Failed)
    ensures Recorded(plan, drawn, sent + [MarkerWrite(day.runId, Success)], Some(day), files, checkpoint)
  {
    AppendLast(sent, MarkerWrite(day.runId, Success));
    CommitVerdict(sent, sent + [MarkerWrite(day.runId, Success)], day.runId);
  }

  /** One more write of a candidate, before any commit. */
  lemma BooksPut(item: Item, fs: Store, inflight: set<Write>, drawn: set<RunId>, sent: seq<MarkerWrite>, more: seq<MarkerWrite>,
                 k: Key, o: Object)
    requires Books(item, fs, inflight, drawn, sent, None) == true && k.run in drawn && OwnObject(item, more, None, k, o)
    requires sent <= more && Uncommitted(more) && forall r, s :: Sent(more, r, s) ==> r in drawn
    ensures Books(item, fs[k := o], inflight, drawn, more, None)
    ensures Books(item, fs, inflight + {Write(k, o)}, drawn, more, None)
  {
    SentStays(sent, more);
  }

  lemma SentStays(sent: seq<MarkerWrite>, more: seq<MarkerWrite>)
    requires sent <= more
    ensures forall r, s :: Sent(sent, r, s) ==> Sent(more, r, s)
  {
  }

  lemma SentAdded(sent: seq<MarkerWrite>, w: MarkerWrite)
    ensures SentMore(sent, sent + [w], w.run, w.status)
  {
    assert (sent + [w])[|sent|] == w;
  }

  /** A candidate is drawn. */
  lemma BooksDraw(item: Item, fs: Store, inflight: set<Write>, drawn: set<RunId>, sent: seq<MarkerWrite>, run: RunId)
    requires Books(item, fs, inflight, drawn, sent, None) == true && run != item.baseline.runId
    requires forall k :: k in fs ==> k.run != run
    ensures Books(item, fs, inflight, drawn + {run}, sent, None)
  {
  }

  /** The commit, from a candidate whose objects are in place. */
  lemma BooksCommit(item: Item, fs: Store, inflight: set<Write>, drawn: set<RunId>, sent: seq<MarkerWrite>, day: DayManifest)
    requires Books(item, fs, inflight, drawn, sent, None) == true && day.runId in drawn
    requires Vouched(fs, item, day) && Documented(fs, item, day)
    requires forall w :: w in inflight ==> w.key.run != day.runId
    ensures var more, w := sent + [MarkerWrite(day.runId, Success)], CommitWrite(day);
            && Books(item, fs[w.key := w.value], inflight, drawn, more, Some(day))
            && Books(item, fs, inflight + {w}, drawn, more, Some(day))
    ensures var w := CommitWrite(day); FilesOf(fs[w.key := w.value], Some(day)) == FilesOf(fs, Some(day))
  {
    var more, w := sent + [MarkerWrite(day.runId, Success)], CommitWrite(day);
    SentAdded(sent, MarkerWrite(day.runId, Success));
    VouchedStays(fs, w.key, w.value, item, day);
  }

  /** Writes after the commit that leave it alone: a header of the candidate, or anything
      of others. */
  lemma BooksAfter(item: Item, fs: Store, inflight: set<Write>, drawn: set<RunId>, sent: seq<MarkerWrite>,
                   commit: Option<DayManifest>, k: Key, o: Object)
    requires Books(item, fs, inflight, drawn, sent, commit) == true && KeyFits(k, o.content)
    requires k.run in drawn ==> OwnObject(item, sent, commit, k, o)
    requires commit.Some? ==> Harmless(fs, k, o, item, commit.value)
    ensures Books(item, fs[k := o], inflight, drawn, sent, commit)
    ensures FilesOf(fs[k := o], commit) == FilesOf(fs, commit)
  {
    if commit.Some? { VouchedStays(fs, k, o, item, commit.value); }
  }

  /** The candidate's header, after its commit. */
  lemma BooksHeader(item: Item, fs: Store, inflight: set<Write>, drawn: set<RunId>, sent: seq<MarkerWrite>, day: DayManifest,
                    header: RunManifest)
    requires Books(item, fs, inflight, drawn, sent, Some(day)) == true && OwnHeader(item, header) && header.runId == day.runId
    requires header.status == RunSuccess
    ensures var k, o := RunKey(day.resource, day.runId), Written(Run(header));
            && Books(item, fs[k := o], inflight, drawn, sent, Some(day)) && Books(item, fs, inflight + {Write(k, o)}, drawn, sent, Some(day))
            && FilesOf(fs[k := o], Some(day)) == FilesOf(fs, Some(day)) && Closed(fs[k := o], Some(day))
  {
    BooksAfter(item, fs, inflight, drawn, sent, Some(day), RunKey(day.resource, day.runId), Written(Run(header)));
  }

  /** A write under way arrives. */
  lemma BooksArrive(item: Item, fs: Store, inflight: set<Write>, drawn: set<RunId>, sent: seq<MarkerWrite>,
                    commit: Option<DayManifest>, w: Write)
    requires Books(item, fs, inflight, drawn, sent, commit) == true && w in inflight
    ensures var fs' := fs[w.key := w.value];
            && Books(item, fs', inflight - {w}, drawn, sent, commit)
            && FilesOf(fs', commit) == FilesOf(fs, commit) && (Landed(fs, commit) ==> Landed(fs', commit))
            && (Closed(fs, commit) ==> Closed(fs', commit))
  {
    if commit.Some? { ArrivalHarmless(item, fs, inflight, drawn, sent, commit.value, w); }
    BooksAfter(item, fs, inflight, drawn, sent, commit, w.key, w.value);
  }

  lemma ArrivalHarmless(item: Item, fs: Store, inflight: set<Write>, drawn: set<RunId>, sent: seq<MarkerWrite>, day: DayManifest,
                        w: Write)
    requires Books(item, fs, inflight, drawn, sent, Some(day)) && w in inflight
    ensures Harmless(fs, w.key, w.value, item, day)
    ensures w.key == CommitWrite(day).key ==> w.value == CommitWrite(day).value
    ensures Closed(fs, Some(day)) ==> Closed(fs[w.key := w.value], Some(day))
  {
    forall r | r in drawn && CommittedBy(fs, day, r) ensures r == day.runId {
      var k := DayKey(day.resource, r, day.date);
      assert OwnObject(item, sent, Some(day), k, fs[k]);
    }
  }

  /** What others may write meanwhile: anything but the baseline's files, a commit of the
      day, or a header that brings one in. */
  predicate Elsewhere(item: Item, fs: Store, k: Key, o: Object)
    requires WellKeyed(fs) && KeyFits(k, o.content)
  {
    && !EntryOf(item.baseline).OwnsFile(k) && (OfDay(item, k) ==> o.content.day.status != Success)
    && (k.RunKey? && k.resource == item.baseline.resource ==> !BringsIn(fs, item.baseline, k, o))
  }

  lemma BooksElsewhere(item: Item, fs: Store, inflight: set<Write>, drawn: set<RunId>, sent: seq<MarkerWrite>,
                       commit: Option<DayManifest>, k: Key, o: Object)
    requires Books(item, fs, inflight, drawn, sent, commit) == true && KeyFits(k, o.content)
    requires k.run !in drawn && Elsewhere(item, fs, k, o)
    ensures Books(item, fs[k := o], inflight, drawn, sent, commit)
    ensures FilesOf(fs[k := o], commit) == FilesOf(fs, commit) && (Landed(fs, commit) ==> Landed(fs[k := o], commit))
    ensures Closed(fs, commit) ==> Closed(fs[k := o], commit)
  {
    BooksAfter(item, fs, inflight, drawn, sent, commit, k, o);
  }

  /** Once a commit was sent the candidate has a header. */
  lemma HeaderInPlace(item: Item, fs: Store, inflight: set<Write>, drawn: set<RunId>, sent: seq<MarkerWrite>, day: DayManifest)
    requires Books(item, fs, inflight, drawn, sent, Some(day))
    ensures var k := RunKey(day.resource, day.runId);
            day.resource == item.baseline.resource && k in fs && fs[k].content.Run? && OwnHeader(item, fs[k].content.run) && fs[k].content.run.runId == day.runId
            && (fs[k].content.run.status == RunSuccess ==> Closed(fs, Some(day)))
  {
    var k := RunKey(day.resource, day.runId);
    assert OwnObject(item, sent, Some(day), k, fs[k]);
  }

  /** A commit of a candidate that was not marked failed is the only verdict on it. */
  lemma CommitVerdict(sent: seq<MarkerWrite>, more: seq<MarkerWrite>, run: RunId)
    requires more == sent + [MarkerWrite(run, Success)] && Uncommitted(sent) && OneVerdict(sent) && !Sent(sent, run, Failed)
    ensures OneVerdict(more) && forall r :: Sent(more, r, Success) ==> r == run
  {
    SentAdded(sent, MarkerWrite(run, Success));
  }

  /** A stored commit of a candidate is the one that was sent. */
  lemma FoundIsCommit(item: Item, fs: Store, inflight: set<Write>, drawn: set<RunId>, sent: seq<MarkerWrite>,
                      commit: Option<DayManifest>, day: DayManifest)
    requires Books(item, fs, inflight, drawn, sent, commit) && day.status == Success && day.runId in drawn
    requires day.date == item.baseline.date && HasDay(fs, item.baseline.resource, day)
    ensures commit == Some(day) && Landed(fs, commit)
  {
    var k := DayKey(item.baseline.resource, day.runId, day.date);
    assert OwnObject(item, sent, commit, k, fs[k]);
  }

  /** The checkpoint names a drawn run: the committed one, if there is one. */
  lemma RecordedRun(item: Item, plan: string, fs: Store, inflight: set<Write>, drawn: set<RunId>, sent: seq<MarkerWrite>,
                    commit: Option<DayManifest>, checkpoint: Option<Checkpoint>)
    requires Books(item, fs, inflight, drawn, sent, commit) && Recorded(plan, drawn, sent, commit, FilesOf(fs, commit), checkpoint)
    ensures checkpoint.Some? ==> checkpoint.value.run in drawn
    ensures commit.Some? ==> checkpoint.Some? && checkpoint.value.run == commit.value.runId
                             && (checkpoint.value.progress == CommitUncertain || checkpoint.value.progress == Finished)
  {
  }

  /** Nothing of a run was sent before it was drawn. */
  lemma NothingSent(item: Item, fs: Store, inflight: set<Write>, drawn: set<RunId>, sent: seq<MarkerWrite>, run: RunId)
    requires Books(item, fs, inflight, drawn, sent, None) && run !in drawn
    ensures (forall s :: !Sent(sent, run, s)) && forall w :: w in inflight ==> w.key.run != run
  {
  }

  lemma RecordedDraw(plan: string, drawn: set<RunId>, sent: seq<MarkerWrite>, checkpoint: Option<Checkpoint>, run: RunId)
    requires Recorded(plan, drawn, sent, None, map[], checkpoint)
    ensures Recorded(plan, drawn + {run}, sent, None, map[], checkpoint)
  {
  }

  /** Before a commit was sent none is found. */
  lemma NoCommitFound(item: Item, fs: Store, inflight: set<Write>, drawn: set<RunId>, sent: seq<MarkerWrite>, run: RunId)
    requires Books(item, fs, inflight, drawn, sent, None) && run in drawn
    ensures var found := ReadDay(fs, item.baseline.resource, run, item.baseline.date);
            found.Some? ==> found.value.status != Success
  {
    var k := DayKey(item.baseline.resource, run, item.baseline.date);
    if k in fs { assert OwnObject(item, sent, None, k, fs[k]); }
  }

  lemma NoCommitYet(item: Item, fs: Store, inflight: set<Write>, drawn: set<RunId>, sent: seq<MarkerWrite>,
                    commit: Option<DayManifest>, run: RunId)
    requires Books(item, fs, inflight, drawn, sent, commit) && run in drawn
    ensures var found := ReadDay(fs, item.baseline.resource, run, item.baseline.date);
            commit.None? && found.Some? ==> found.value.status != Success
  {
    if commit.None? { NoCommitFound(item, fs, inflight, drawn, sent, run); }
  }
}
