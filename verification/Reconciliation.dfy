/** The ledger, the tables and the work between them as one transition system. */
module Reconciliation {
  import opened Options
  import opened Accounting
  import opened ImportStateStore
  import opened ImportLedgerSpec

  /** What one accepted reading added to the observed history. */
  datatype Observation = Observation(previous: Option<Sample>, current: Sample, power: Option<real>, measured: bool)

  /** A finished job; seen counts this session's committed rows when it finished. */
  datatype Finished = Finished(job: Job, reply: Reply, seen: int)

  /** The last two fields are history: every event ever queued and every reading ever measured. */
  datatype System = System(
    ledger: Ledger, db: Db, jobs: seq<Job>, replies: seq<Finished>,
    queued: seq<Event>, log: seq<Observation>)

  datatype Op =
    | Capture
    | Read(reading: Reading)
    | Permit(now: Instant, source: Source, active: bool)
    | Dispute(now: Instant, reason: Reason, permissionUnknown: bool)
    | Drain
    | Ask(day: Day, source: Source)
    | Work
    | Abandon(job: nat)
    | Deliver(reply: nat, again: bool)
    | Lose(reply: nat)
    | Report(day: Day, source: Source, observedAt: Option<Instant>)

  function Start(db: Db, session: Session, started: Instant, source: Source, limit: nat, deferred: bool): System {
    System(Fresh(session, started, source, limit, deferred), db, [], [], [], [])
  }

  function Without<T>(s: seq<T>, i: nat): seq<T> {
    if i < |s| then s[..i] + s[i + 1..] else s
  }

  // ---------------------------------------------------------------- the history of an operation

  /** The event that Persist queues, if it finds room. */
  function PersistedEvents(l: Ledger, db: Db, i: Interval): seq<Event> {
    var numbered := l.(sequence := l.sequence + 1);
    if MakeRoom(numbered, db, i.current.now.day).2.Raised? then [] else [Freeze(numbered, i)]
  }

  function ReadingEvents(l: Ledger, db: Db, r: Reading): seq<Event> {
    var current := Current(r);
    var after := Advance(Observed(l, r), current);
    if NeedsEvent(l, current, after) then PersistedEvents(after, db, ReadingInterval(l, r, after.last.value)) else []
  }

  function RecordedEvents(l: Ledger, db: Db, r: Reading): seq<Event> {
    if !r.now.aware then []
    else
      var (loaded, read) := LoadCheckpoint(BeginCapture(l), db, r.now.day);
      ReadingEvents(loaded, read, r)
  }

  function OwnEvents(l: Ledger, db: Db, now: Instant, active: bool): seq<Event>
    requires l.last.Some?
  {
    var owned := ChangeOwner(l, active);
    PersistedEvents(owned, db, PermissionInterval(owned.last.value, now))
  }

  function ChangeEvents(l: Ledger, db: Db, now: Instant, active: bool): seq<Event> {
    if l.last.None? || OwnerUnchanged(l, active) then [] else OwnEvents(l, db, now, active)
  }

  function AppliedEvents(l: Ledger, db: Db, now: Instant, source: Source, active: bool): seq<Event> {
    ChangeEvents(CheckSource(l, source, now.day), db, now, active)
  }

  function PermissionEvents(l: Ledger, db: Db, now: Instant, source: Source, active: bool): seq<Event> {
    AppliedEvents(BeginCapture(l), db, now, source, active)
  }

  function Observe(l: Ledger, r: Reading): Observation {
    Observation(l.last, Current(r), r.power, MeasuredActive(l, Current(r)))
  }

  // ---------------------------------------------------------------- steps and runs

  function Finish(s: System, origin: Db): System {
    if s.jobs == [] then s
    else
      var (db', reply) := RunJob(s.db, s.jobs[0]);
      var worked := s.(db := db', jobs := s.jobs[1..]);
      worked.(replies := s.replies + [Finished(s.jobs[0], reply, |db'.rows| - |origin.rows|)])
  }

  /** origin is the database the session opened; only the history counter needs it. */
  function Apply(s: System, op: Op, origin: Db): System {
    match op
    case Capture => s.(ledger := BeginCapture(s.ledger))
    case Read(r) =>
      var (l, db, _) := RecordReading(s.ledger, s.db, r);
      s.(ledger := l, db := db, queued := s.queued + RecordedEvents(s.ledger, s.db, r),
         log := if r.now.aware then s.log + [Observe(s.ledger, r)] else s.log)
    case Permit(now, source, active) =>
      var (l, db, _) := SetPermission(s.ledger, s.db, now, source, active);
      s.(ledger := l, db := db, queued := s.queued + PermissionEvents(s.ledger, s.db, now, source, active))
    case Dispute(now, reason, permissionUnknown) =>
      s.(ledger := Invalidate(s.ledger, now, reason, permissionUnknown))
    case Drain =>
      var (l, db, _) := Flush(s.ledger, s.db);
      s.(ledger := l, db := db)
    case Ask(day, source) => s.(jobs := s.jobs + [Snapshot(s.ledger, day, source)])
    case Work => Finish(s, origin)
    case Abandon(i) => s.(jobs := Without(s.jobs, i))
    case Deliver(i, again) =>
      if i >= |s.replies| then s
      else
        s.(ledger := Accept(s.ledger, s.replies[i].job.key, s.replies[i].reply),
           replies := if again then s.replies else Without(s.replies, i))
    case Lose(i) => s.(replies := Without(s.replies, i))
    case Report(day, source, observedAt) =>
      var (l, db, _) := ReadSummary(s.ledger, s.db, day, source, observedAt);
      s.(ledger := l, db := db)
  }

  function Run(s: System, ops: seq<Op>, origin: Db): System {
    if ops == [] then s else Apply(Run(s, ops[..|ops| - 1], origin), ops[|ops| - 1], origin)
  }

  /** A worker's replies reach the ledger once each and in the order they were finished. */
  predicate InOrder(op: Op) {
    op.Deliver? ==> op.reply == 0 && !op.again
  }

  /** A database that this session has never written. */
  predicate Opens(db: Db, session: Session) {
    UniqueIds(db.rows) && forall i :: 0 <= i < |db.rows| ==> db.rows[i].id.session != session
  }

  // ---------------------------------------------------------------- frames

  lemma {:induction false} FlushLoopFrame(l: Ledger, db: Db)
    ensures FlushLoop(l, db).0 == l.(pending := FlushLoop(l, db).0.pending)
    ensures FlushLoop(l, db).2 == Done ==> FlushLoop(l, db).0.pending == []
    decreases |l.pending|
  {
    if l.pending != [] {
      var (db', outcome) := Record(db, l.pending[0]);
      if outcome == Done {
        FlushLoopFrame(l.(pending := l.pending[1..]), db');
      }
    }
  }

  lemma FlushFrame(l: Ledger, db: Db)
    ensures Flush(l, db).0 == l.(pending := Flush(l, db).0.pending)
    ensures !l.deferred && Flush(l, db).2 == Done ==> Flush(l, db).0.pending == []
  {
    if !l.deferred {
      FlushLoopFrame(l, db);
    }
  }

  lemma MakeRoomFrame(l: Ledger, db: Db, day: Day)
    ensures
      var (l', _, outcome) := MakeRoom(l, db, day);
      if outcome.Raised? then l' == Mark(l.(pending := l'.pending), day, PendingIntervalOverflow)
      else l' == l.(pending := l'.pending)
  {
    FlushFrame(l, db);
  }

  lemma PersistFrame(l: Ledger, db: Db, i: Interval)
    ensures
      var l' := Persist(l, db, i).0;
      if PersistedEvents(l, db, i) == [] then
        && Persist(l, db, i).2.Raised?
        && l' == Mark(l.(sequence := l.sequence + 1, pending := l'.pending), i.current.now.day, PendingIntervalOverflow)
      else
        l' == l.(sequence := l.sequence + 1, pending := l'.pending, retained := true,
                 queuedRevision := l.unknownRevision)
  {
    var numbered := l.(sequence := l.sequence + 1);
    MakeRoomFrame(numbered, db, i.current.now.day);
    var (l1, db1, outcome) := MakeRoom(numbered, db, i.current.now.day);
    if outcome == Done {
      FlushFrame(Enqueue(l1, Freeze(numbered, i)), db1);
    }
  }

  ghost predicate Grows(l: Ledger, l': Ledger) {
    && (forall d :: d in l.unknownDays ==> d in l'.unknownDays && l'.unknownDays[d] == l.unknownDays[d])
    && l.unknownRevision <= l'.unknownRevision
    && (l.unknownRevision == l'.unknownRevision ==> l.unknownDays == l'.unknownDays)
  }

  /** The ledgers differ at most by new unknown days; the first reason of a day is never replaced. */
  ghost predicate OnlyMarks(l: Ledger, l': Ledger) {
    && l' == l.(unknownDays := l'.unknownDays, unknownRevision := l'.unknownRevision)
    && Grows(l, l')
  }

  lemma MarkFrame(l: Ledger, day: Day, reason: Reason)
    ensures OnlyMarks(l, Mark(l, day, reason)) && day in Mark(l, day, reason).unknownDays
  {
  }

  lemma MarkLastFrame(l: Ledger, reason: Reason)
    ensures OnlyMarks(l, MarkLast(l, reason))
    ensures l.last.Some? ==> l.last.value.now.day in MarkLast(l, reason).unknownDays
  {
    hide Mark;
    if l.last.Some? {
      MarkFrame(l, l.last.value.now.day, reason);
    }
  }

  lemma CheckSourceFrame(l: Ledger, source: Source, day: Day)
    ensures OnlyMarks(l, CheckSource(l, source, day))
    ensures source != l.source ==> day in CheckSource(l, source, day).unknownDays
  {
    MarkFrame(l, day, MeasurementSourceChanged);
    MarkLastFrame(Mark(l, day, MeasurementSourceChanged), MeasurementSourceChanged);
  }

  lemma LoadCheckpointFrame(l: Ledger, db: Db, day: Day)
    ensures
      var (l', db') := LoadCheckpoint(l, db, day);
      && OnlyMarks(l.(checkpointLoaded := l'.checkpointLoaded), l')
      && db' == db.(faults := db'.faults)
  {
  }

  lemma MarkPairFrame(l: Ledger, condition: bool, first: Day, second: Day, reason: Reason)
    ensures
      var l' := MarkPair(l, condition, first, second, reason);
      OnlyMarks(l, l') && (condition ==> first in l'.unknownDays && second in l'.unknownDays)
  {
    MarkFrame(l, first, reason);
    MarkFrame(Mark(l, first, reason), second, reason);
  }

  lemma MarkBoundaryFrame(l: Ledger, current: Sample)
    ensures OnlyMarks(l, MarkBoundary(l, current))
  {
    var day := current.now.day;
    MarkFrame(l, day, MissingInitialBoundary);
    if l.last.Some? {
      var before := l.last.value.now.day;
      var gap := !InGap(Elapsed(l.last, current.now));
      var l1 := MarkPair(l, gap, day, before, ObservationGapOrClockChange);
      MarkPairFrame(l, gap, day, before, ObservationGapOrClockChange);
      MarkPairFrame(l1, !ProvenEntry(l.last, current), day, before, UnprovenDayOrSourceBoundary);
      MarkFrame(l1, day, ImportCounterResetOrUnavailable);
      assert OnlyMarks(l1, MarkBoundary(l, current));
    }
  }

  lemma OnlyMarksTransitive(a: Ledger, b: Ledger, c: Ledger)
    requires OnlyMarks(a, b) && OnlyMarks(b, c)
    ensures OnlyMarks(a, c)
  {
  }

  lemma ObservedFrame(l: Ledger, r: Reading)
    ensures OnlyMarks(l, Observed(l, r))
  {
    var current := Current(r);
    CheckSourceFrame(l, r.source, r.now.day);
    var l1 := CheckSource(l, r.source, r.now.day);
    MarkFrame(l1, r.now.day, ImportCounterUnavailable);
    var l2 := MarkIf(l1, current.daily.None?, r.now.day, ImportCounterUnavailable);
    MarkFrame(l2, r.now.day, ImportPermissionUnproven);
    var l3 := MarkIf(l2, !r.permissionKnown, r.now.day, ImportPermissionUnproven);
    MarkBoundaryFrame(l3, current);
    MarkFrame(MarkBoundary(l3, current), r.now.day, ImportPowerUnavailable);
    assert OnlyMarks(l, l3);
    OnlyMarksTransitive(l, l3, MarkBoundary(l3, current));
    OnlyMarksTransitive(l, MarkBoundary(l3, current), Observed(l, r));
  }

  lemma InvalidateFrame(l: Ledger, now: Instant, reason: Reason, permissionUnknown: bool)
    ensures
      var l' := Invalidate(l, now, reason, permissionUnknown);
      && OnlyMarks(Retract(l, permissionUnknown || reason == ApplicationNotConfirmed), l')
      && now.day in l'.unknownDays && (l.last.Some? ==> l.last.value.now.day in l'.unknownDays)
  {
    var retracted := Retract(l, permissionUnknown || reason == ApplicationNotConfirmed);
    MarkFrame(retracted, now.day, reason);
    MarkLastFrame(Mark(retracted, now.day, reason), reason);
  }

  lemma MarkStaleFrame(l: Ledger, day: Day, observedAt: Option<Instant>)
    ensures OnlyMarks(l, MarkStale(l, day, observedAt))
  {
    MarkFrame(l, day, ObservationGapOrClockChange);
    MarkLastFrame(Mark(l, day, ObservationGapOrClockChange), ObservationGapOrClockChange);
  }

  lemma ReadSummaryFrame(l: Ledger, db: Db, day: Day, source: Source, observedAt: Option<Instant>)
    ensures
      var (l', db', _) := ReadSummary(l, db, day, source, observedAt);
      && OnlyMarks(l.(checkpointLoaded := l'.checkpointLoaded), l')
      && db' == db.(faults := db'.faults)
  {
    hide MarkStale, LoadCheckpoint, CheckSource, Summarize;
    MarkStaleFrame(l, day, observedAt);
    var stale := MarkStale(l, day, observedAt);
    LoadCheckpointFrame(stale, db, day);
    CheckSourceFrame(LoadCheckpoint(stale, db, day).0, source, day);
  }

  lemma LearnedFrame(l: Ledger, reply: Reply)
    ensures OnlyMarks(l.(checkpointLoaded := Learned(l, reply).checkpointLoaded), Learned(l, reply))
  {
  }
}
