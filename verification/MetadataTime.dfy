/** Time exclusion: under a clock that never goes back, the spans during which
    attempts held the lease of one partition do not overlap. */
module MetadataTime {
  import opened Wrappers
  import opened MetadataTables
  import opened MetadataProtocol
  import opened MetadataHistory
  import opened MetadataInvariants
  import opened MetadataSafety

  /** From the claim to the last granted expiry, or to the release if that came first. */
  datatype Tenancy = Tenancy(partition: Id, start: int, end: int)

  type Log = map<Id, Tenancy>

  function Earlier(t: Tenancy, now: int): Tenancy {
    if now < t.end then t.(end := now) else t
  }

  /** The tenancies after a step. */
  ghost function Track(log: Log, db: Tables, s: Step): Log {
    match s
    case Begin(_, _, _, _, _, _, _, _, _) => TrackBegin(log, BeginStep(db, s).1)
    case Renew(_, _, _, _, _) => TrackRenew(log, s.attempt, RenewStep(db, s).1)
    case Publish(_, _, _, _, _, _, _, _) => if PublishStep(db, s).1.Published? then TrackEnd(log, s.attempt, s.now) else log
    case Fail(_, _, _, _, _) =>
      if FailStep(db, s).1.Released? && s.attempt in log && Holds(db, log[s.attempt].partition, s.attempt) then
        TrackEnd(log, s.attempt, s.now)
      else log
    case PublishDay(_, _, _, _, _, _, _) => log
    case ImportManifest(_, _, _, _, _, _, _, _) => log
  }

  function TrackBegin(log: Log, reply: Reply): Log {
    if reply.Claimed? && reply.lease.holder.Some? then
      var h := reply.lease.holder.value;
      log[reply.attempt := Tenancy(reply.partition, h.heartbeat, h.expires)]
    else log
  }

  function TrackRenew(log: Log, a: Id, reply: Reply): Log {
    if reply.Renewed? && reply.lease.holder.Some? && a in log then
      log[a := log[a].(end := reply.lease.holder.value.expires)]
    else log
  }

  function TrackEnd(log: Log, a: Id, now: int): Log {
    if a in log then log[a := Earlier(log[a], now)] else log
  }

  ghost function RunLog(log: Log, db: Tables, steps: seq<Step>): Log
    decreases |steps|
  {
    if steps == [] then log else RunLog(Track(log, db, steps[0]), Next(db, steps[0]), steps[1..])
  }

  /** Service steps read the database clock; the import tools bring their own time. */
  predicate ReadsClock(s: Step) { s.Begin? || s.Renew? || s.Publish? || s.Fail? }

  function TimeOf(s: Step): int
    requires ReadsClock(s)
  {
    s.now
  }

  /** The clock never goes back. */
  predicate ClockOrdered(steps: seq<Step>) {
    forall i, j :: 0 <= i < j < |steps| && ReadsClock(steps[i]) && ReadsClock(steps[j]) ==> TimeOf(steps[i]) <= TimeOf(steps[j])
  }

  predicate NotBefore(clock: int, steps: seq<Step>) {
    forall i :: 0 <= i < |steps| && ReadsClock(steps[i]) ==> clock <= TimeOf(steps[i])
  }

  predicate Apart(t: Tenancy, u: Tenancy) { t.end <= u.start || u.end <= t.start }

  ghost predicate Disjoint(log: Log) {
    forall a, b :: a in log && b in log && a != b && log[a].partition == log[b].partition ==> Apart(log[a], log[b])
  }

  type Leases = map<Id, LeaseRow>

  predicate HeldBy(leases: Leases, p: Id, a: Id) {
    p in leases && leases[p].holder.Some? && leases[p].holder.value.attempt == a
  }

  /** A finished tenancy ended before now, and before the present holder began. */
  predicate Past(leases: Leases, log: Log, clock: int, a: Id)
    requires a in log
  {
    var p := log[a].partition;
    && log[a].end <= clock
    && (p in leases && leases[p].holder.Some? && leases[p].holder.value.attempt in log ==>
          log[a].end <= log[leases[p].holder.value.attempt].start)
  }

  predicate Present(leases: Leases, log: Log, clock: int, p: Id)
    requires p in leases && leases[p].holder.Some?
  {
    var h := leases[p].holder.value;
    h.attempt in log && log[h.attempt].partition == p && log[h.attempt].end == h.expires && log[h.attempt].start <= clock
  }

  ghost predicate Timed(leases: Leases, log: Log, clock: int) {
    && (forall a :: a in log ==> log[a].partition in leases)
    && (forall a :: a in log && !HeldBy(leases, log[a].partition, a) ==> Past(leases, log, clock, a))
    && (forall p :: p in leases && leases[p].holder.Some? ==> Present(leases, log, clock, p))
    && Disjoint(log)
  }

  /** `next` gives `p` the lease row `lease`, and may have new unheld rows. */
  predicate LeaseChanged(leases: Leases, next: Leases, p: Id, lease: LeaseRow) {
    && p in next && next[p] == lease
    && (forall q :: q in leases && q != p ==> q in next && next[q] == leases[q])
    && (forall q :: q in next && q !in leases && q != p ==> next[q].holder.None?)
  }

  lemma ClaimKeepsTimed(leases: Leases, next: Leases, log: Log, clock: int, now: int, p: Id, lease: LeaseRow)
    requires Timed(leases, log, clock) && clock <= now
    requires LeaseChanged(leases, next, p, lease) && lease.holder.Some?
    requires lease.holder.value.attempt !in log && lease.holder.value.heartbeat == now
    requires p in leases && leases[p].holder.Some? ==> leases[p].holder.value.expires <= now
    ensures Timed(next, log[lease.holder.value.attempt := Tenancy(p, now, lease.holder.value.expires)], now)
  {
    var h := lease.holder.value;
    var log' := log[h.attempt := Tenancy(p, now, h.expires)];
    forall q | q in next && next[q].holder.Some? ensures Present(next, log', now, q) {
      if q != p { assert Present(leases, log, clock, q); }
    }
    forall a | a in log ensures log[a].end <= now || log[a].partition != p {
      if HeldBy(leases, log[a].partition, a) { assert Present(leases, log, clock, log[a].partition); }
      else { assert Past(leases, log, clock, a); }
    }
    forall a | a in log' && !HeldBy(next, log'[a].partition, a) ensures Past(next, log', now, a) {
      if HeldBy(leases, log[a].partition, a) {
        assert log[a].partition == p;
      } else {
        assert Past(leases, log, clock, a);
      }
    }
  }

  lemma RenewalKeepsTimed(leases: Leases, next: Leases, log: Log, clock: int, now: int, p: Id, lease: LeaseRow)
    requires Timed(leases, log, clock) && clock <= now
    requires LeaseChanged(leases, next, p, lease) && lease.holder.Some?
    requires p in leases && leases[p].holder.Some? && leases[p].holder.value.attempt == lease.holder.value.attempt
    ensures lease.holder.value.attempt in log
    ensures var a := lease.holder.value.attempt;
            Timed(next, log[a := log[a].(end := lease.holder.value.expires)], now)
  {
  }

  lemma ReleaseKeepsTimed(leases: Leases, next: Leases, log: Log, clock: int, now: int, p: Id, a: Id)
    requires Timed(leases, log, clock) && clock <= now && HeldBy(leases, p, a)
    requires LeaseChanged(leases, next, p, leases[p].(holder := None))
    ensures a in log && log[a].partition == p
    ensures Timed(next, log[a := Earlier(log[a], now)], now)
  {
  }

  lemma QuietKeepsTimed(leases: Leases, next: Leases, log: Log, clock: int, now: int)
    requires Timed(leases, log, clock) && clock <= now
    requires forall q :: q in leases ==> q in next && next[q] == leases[q]
    requires forall q :: q in next && q !in leases ==> next[q].holder.None?
    ensures Timed(next, log, now)
  {
  }

  function ClockAfter(clock: int, s: Step): int {
    if ReadsClock(s) then TimeOf(s) else clock
  }

  lemma StepKeepsTimed(db: Tables, log: Log, clock: int, s: Step)
    requires OneLeasePerPartition(db) && LeasesOk(db)
    requires Timed(db.leases, log, clock) && log.Keys <= db.attempts.Keys
    requires clock <= ClockAfter(clock, s)
    ensures Timed(Next(db, s).leases, Track(log, db, s), ClockAfter(clock, s))
    ensures Track(log, db, s).Keys <= Next(db, s).attempts.Keys
  {
    forall a | a in log ensures a in Next(db, s).attempts { AttemptsKeepIdentity(db, s, a); }
    match s
    case Begin(_, _, _, _, _, _, _, _, _) => BeginKeepsTimed(db, log, clock, s);
    case Renew(_, _, _, _, _) =>
      if ReplyTo(db, s).Renewed? {
        var p := db.attempts[s.attempt].partition;
        RenewalKeepsTimed(db.leases, Next(db, s).leases, log, clock, s.now, p, RenewedLease(db.leases[p], s.duration, s.now));
      } else {
        QuietKeepsTimed(db.leases, db.leases, log, clock, s.now);
      }
    case Publish(_, _, _, _, _, _, _, _) => PublishKeepsTimed(db, log, clock, s);
    case Fail(_, _, _, _, _) => FailKeepsTimed(db, log, clock, s);
    case PublishDay(_, _, _, _, _, _, _) => ImportKeepsTimed(db, log, clock, s);
    case ImportManifest(_, _, _, _, _, _, _, _) => ImportKeepsTimed(db, log, clock, s);
  }

  lemma BeginKeepsTimed(db: Tables, log: Log, clock: int, s: Step)
    requires OneLeasePerPartition(db) && Timed(db.leases, log, clock) && log.Keys <= db.attempts.Keys
    requires s.Begin? && clock <= s.now
    ensures Timed(BeginStep(db, s).0.leases, TrackBegin(log, BeginStep(db, s).1), s.now)
    ensures TrackBegin(log, BeginStep(db, s).1).Keys <= BeginStep(db, s).0.attempts.Keys
  {
    var (next, reply) := BeginStep(db, s);
    if reply.Claimed? {
      ClaimKeepsTimed(db.leases, next.leases, log, clock, s.now, reply.partition, reply.lease);
    } else {
      QuietKeepsTimed(db.leases, next.leases, log, clock, s.now);
    }
  }

  /** Publishing and failing can only end a tenancy. */
  lemma PublishKeepsTimed(db: Tables, log: Log, clock: int, s: Step)
    requires Timed(db.leases, log, clock) && log.Keys <= db.attempts.Keys
    requires s.Publish? && clock <= s.now
    ensures Timed(PublishStep(db, s).0.leases, Track(log, db, s), s.now)
    ensures Track(log, db, s).Keys <= log.Keys
  {
    var (next, reply) := PublishStep(db, s);
    if reply.Published? {
      ReleaseKeepsTimed(db.leases, next.leases, log, clock, s.now, reply.partition, s.attempt);
    } else {
      QuietKeepsTimed(db.leases, next.leases, log, clock, s.now);
    }
  }

  lemma FailKeepsTimed(db: Tables, log: Log, clock: int, s: Step)
    requires LeasesOk(db) && Timed(db.leases, log, clock) && log.Keys <= db.attempts.Keys
    requires s.Fail? && clock <= s.now
    ensures Timed(FailStep(db, s).0.leases, Track(log, db, s), s.now)
    ensures Track(log, db, s).Keys <= log.Keys
  {
    var (next, reply) := FailStep(db, s);
    if reply.Released? && Holds(db, db.attempts[s.attempt].partition, s.attempt) {
      ReleaseKeepsTimed(db.leases, next.leases, log, clock, s.now, db.attempts[s.attempt].partition, s.attempt);
    } else {
      assert forall p :: p in db.leases ==> LeaseRowOk(db, p, db.leases[p]);
      QuietKeepsTimed(db.leases, next.leases, log, clock, s.now);
    }
  }

  lemma ImportKeepsTimed(db: Tables, log: Log, clock: int, s: Step)
    requires OneLeasePerPartition(db) && Timed(db.leases, log, clock) && Imports(s)
    ensures Timed(ImportStep(db, s).0.leases, log, clock)
  {
    ImportLeavesLeases(db, s);
    QuietKeepsTimed(db.leases, ImportStep(db, s).0.leases, log, clock, clock);
  }

  lemma ImportLeavesLeases(db: Tables, s: Step)
    requires OneLeasePerPartition(db) && Imports(s)
    ensures var next := ImportStep(db, s).0.leases;
            && (forall q :: q in db.leases ==> q in next && next[q] == db.leases[q])
            && (forall q :: q in next && q !in db.leases ==> next[q].holder.None?)
  {}

  lemma {:induction false} RunKeepsTimed(db: Tables, log: Log, clock: int, steps: seq<Step>)
    requires Inv(db) && Timed(db.leases, log, clock) && log.Keys <= db.attempts.Keys && ClockOrdered(steps) && NotBefore(clock, steps)
    ensures Disjoint(RunLog(log, db, steps))
    decreases |steps|
  {
    if steps != [] {
      var s, rest := steps[0], steps[1..];
      var clock' := ClockAfter(clock, s);
      StepKeepsInv(db, s);
      StepKeepsTimed(db, log, clock, s);
      forall i | 0 <= i < |rest| && ReadsClock(rest[i]) ensures clock' <= TimeOf(rest[i]) { assert rest[i] == steps[i + 1]; }
      RunKeepsTimed(Next(db, s), Track(log, db, s), clock', rest);
    }
  }

  function FirstTime(steps: seq<Step>): int {
    if steps == [] then 0 else if ReadsClock(steps[0]) then TimeOf(steps[0]) else FirstTime(steps[1..])
  }

  lemma {:induction false} FirstTimeIsFirst(steps: seq<Step>)
    requires ClockOrdered(steps)
    ensures NotBefore(FirstTime(steps), steps)
  {
    if steps != [] && !ReadsClock(steps[0]) {
      var rest := steps[1..];
      FirstTimeIsFirst(rest);
      forall i | 0 <= i < |steps| && ReadsClock(steps[i]) ensures FirstTime(steps) <= TimeOf(steps[i]) {
        assert steps[i] == rest[i - 1];
      }
    }
  }

  /** Two attempts never hold the lease of a partition at the same time. */
  lemma TimeExclusion(steps: seq<Step>)
    requires ClockOrdered(steps)
    ensures Disjoint(RunLog(map[], EMPTY, steps))
  {
    FirstTimeIsFirst(steps);
    RunKeepsTimed(EMPTY, map[], FirstTime(steps), steps);
  }

  /** A renewal succeeds only while the lease still runs, and then extends exactly it. */
  lemma RenewalNeedsLiveLease(db: Tables, s: Step)
    requires s.Renew? && ReplyTo(db, s).Renewed?
    ensures var p := db.attempts[s.attempt].partition;
            && Holds(db, p, s.attempt) && db.leases[p].holder.value.expires > s.now
            && Holds(Next(db, s), p, s.attempt) && Next(db, s).leases[p].holder.value.expires == s.now + s.duration
            && s.duration > 0
            && (forall q :: q in db.leases && q != p ==> q in Next(db, s).leases && Next(db, s).leases[q] == db.leases[q])
  {}
}
