/** Exactly when a session reports the last day of the session before it as complete. */
module MissedCheckpoint {
  import opened Options
  import opened Accounting
  import opened ImportStateStore
  import opened ImportLedgerSpec
  import opened Reconciliation
  import opened DurableHistory
  import opened ExactlyOnce
  import opened RestartGap
  import SummaryCache

  // ---------------------------------------------------------------- operations on other days

  /** The ledger holds no doubt about the day and took no sample in it. */
  ghost predicate Clear(l: Ledger, d: Day) {
    d !in l.unknownDays && (l.last.Some? ==> l.last.value.now.day != d)
  }

  ghost predicate AllClear(events: seq<Event>, d: Day) {
    forall i :: 0 <= i < |events| ==> d !in events[i].unknownDays && events[i].checkpoint.day != d
  }

  predicate Elsewhere(op: Op, d: Day) {
    match op
    case Read(r) => r.now.day != d
    case Permit(now, _, _) => now.day != d
    case Dispute(now, _, _) => now.day != d
    case Report(day, _, _) => day != d
    case _ => true
  }

  lemma MarkIsClear(l: Ledger, day: Day, reason: Reason, d: Day)
    requires Clear(l, d) && day != d
    ensures Clear(Mark(l, day, reason), d) && Mark(l, day, reason).last == l.last
  {
  }

  lemma MarkLastIsClear(l: Ledger, reason: Reason, d: Day)
    requires Clear(l, d)
    ensures Clear(MarkLast(l, reason), d) && MarkLast(l, reason).last == l.last
  {
    hide Mark;
    if l.last.Some? {
      MarkIsClear(l, l.last.value.now.day, reason, d);
    }
  }

  lemma CheckSourceIsClear(l: Ledger, source: Source, day: Day, d: Day)
    requires Clear(l, d) && day != d
    ensures Clear(CheckSource(l, source, day), d) && CheckSource(l, source, day).last == l.last
  {
    hide Mark, MarkLast;
    MarkIsClear(l, day, MeasurementSourceChanged, d);
    MarkLastIsClear(Mark(l, day, MeasurementSourceChanged), MeasurementSourceChanged, d);
  }

  lemma MarkPairIsClear(l: Ledger, condition: bool, first: Day, second: Day, reason: Reason, d: Day)
    requires Clear(l, d) && first != d && second != d
    ensures
      var l' := MarkPair(l, condition, first, second, reason);
      Clear(l', d) && l'.last == l.last
  {
    hide Mark;
    MarkIsClear(l, first, reason, d);
    MarkIsClear(Mark(l, first, reason), second, reason, d);
  }

  lemma MarkBoundaryIsClear(l: Ledger, current: Sample, d: Day)
    requires Clear(l, d) && current.now.day != d
    ensures Clear(MarkBoundary(l, current), d) && MarkBoundary(l, current).last == l.last
  {
    hide Mark, MarkPair, ProvenEntry, MetersUsable, SameDay;
    var day := current.now.day;
    MarkIsClear(l, day, MissingInitialBoundary, d);
    if l.last.Some? {
      var before := l.last.value.now.day;
      var gap := !InGap(Elapsed(l.last, current.now));
      var l1 := MarkPair(l, gap, day, before, ObservationGapOrClockChange);
      MarkPairIsClear(l, gap, day, before, ObservationGapOrClockChange, d);
      MarkPairIsClear(l1, !ProvenEntry(l.last, current), day, before, UnprovenDayOrSourceBoundary, d);
      MarkIsClear(l1, day, ImportCounterResetOrUnavailable, d);
    }
  }

  lemma ObservedIsClear(l: Ledger, r: Reading, d: Day)
    requires Clear(l, d) && r.now.day != d
    ensures Clear(Observed(l, r), d) && Observed(l, r).last == l.last
  {
    hide Mark, CheckSource, MarkBoundary, Measure, Clear;
    var current := Current(r);
    CheckSourceIsClear(l, r.source, r.now.day, d);
    var l1 := CheckSource(l, r.source, r.now.day);
    MarkIsClear(l1, r.now.day, ImportCounterUnavailable, d);
    var l2 := MarkIf(l1, current.daily.None?, r.now.day, ImportCounterUnavailable);
    MarkIsClear(l2, r.now.day, ImportPermissionUnproven, d);
    var l3 := MarkIf(l2, !r.permissionKnown, r.now.day, ImportPermissionUnproven);
    MarkBoundaryIsClear(l3, current, d);
    MarkIsClear(MarkBoundary(l3, current), r.now.day, ImportPowerUnavailable, d);
  }

  lemma PersistIsClear(l: Ledger, db: Db, i: Interval, d: Day)
    requires Clear(l, d) && i.current.now.day != d
    ensures Clear(Persist(l, db, i).0, d) && AllClear(PersistedEvents(l, db, i), d)
  {
    hide Persist;
    PersistFrame(l, db, i);
  }

  lemma TakeReadingIsClear(l: Ledger, db: Db, r: Reading, d: Day)
    requires Clear(l, d) && r.now.day != d
    ensures Clear(TakeReading(l, db, r).0, d) && AllClear(ReadingEvents(l, db, r), d)
  {
    hide Persist, Flush, Observed, PersistedEvents;
    ObservedIsClear(l, r, d);
    var after := Advance(Observed(l, r), Current(r));
    PersistIsClear(after, db, ReadingInterval(l, r, after.last.value), d);
    FlushFrame(after.(retained := true), db);
  }

  lemma InvalidateIsClear(l: Ledger, now: Instant, reason: Reason, permissionUnknown: bool, d: Day)
    requires Clear(l, d) && now.day != d
    ensures Clear(Invalidate(l, now, reason, permissionUnknown), d)
  {
    hide Mark, MarkLast;
    var retracted := Retract(l, permissionUnknown || reason == ApplicationNotConfirmed);
    MarkIsClear(retracted, now.day, reason, d);
    MarkLastIsClear(Mark(retracted, now.day, reason), reason, d);
  }

  /** A checkpoint that would not put the day in doubt. */
  predicate Harmless(taught: Option<Saved>, d: Day) {
    taught.Some? ==> taught.value.checkpoint.day != d
  }

  lemma LoadingIsClear(l: Ledger, db: Db, day: Day, d: Day)
    requires Clear(l, d) && day != d
    requires !l.checkpointLoaded && LoadCheckpoint(l, db, day).0.checkpointLoaded ==> Harmless(db.checkpoint, d)
    ensures Clear(LoadCheckpoint(l, db, day).0, d)
  {
  }

  lemma BegunIsClear(l: Ledger, d: Day)
    requires Clear(l, d)
    ensures Clear(BeginCapture(l), d)
  {
  }

  lemma RecordIsClear(l: Ledger, db: Db, r: Reading, d: Day)
    requires Clear(l, d) && r.now.day != d
    requires !l.checkpointLoaded && RecordReading(l, db, r).0.checkpointLoaded ==> Harmless(db.checkpoint, d)
    ensures Clear(RecordReading(l, db, r).0, d) && AllClear(RecordedEvents(l, db, r), d)
  {
    hide TakeReading, Invalidate, LoadCheckpoint, ReadingEvents, Clear;
    var begun := BeginCapture(l);
    BegunIsClear(l, d);
    InvalidateIsClear(begun, r.now, IntervalSnapshotUnretained, false, d);
    InvalidateFrame(begun, r.now, IntervalSnapshotUnretained, false);
    if r.now.aware {
      var (loaded, read) := LoadCheckpoint(begun, db, r.now.day);
      TakeReadingIsSteady(loaded, read, r);
      var taken := TakeReading(loaded, read, r).0;
      InvalidateFrame(taken, r.now, IntervalSnapshotUnretained, false);
      LoadingIsClear(begun, db, r.now.day, d);
      TakeReadingIsClear(loaded, read, r, d);
      InvalidateIsClear(taken, r.now, IntervalSnapshotUnretained, false, d);
    }
  }

  lemma ChangeIsClear(l: Ledger, db: Db, now: Instant, active: bool, d: Day)
    requires Clear(l, d) && now.day != d
    ensures Clear(Change(l, db, now, active).0, d) && AllClear(ChangeEvents(l, db, now, active), d)
  {
    hide Persist, Flush, Invalidate, PersistedEvents;
    InvalidateIsClear(l, now, MissingInitialBoundary, false, d);
    FlushFrame(l.(retained := true), db);
    if l.last.Some? {
      var owned := ChangeOwner(l, active);
      PersistIsClear(owned, db, PermissionInterval(owned.last.value, now), d);
    }
  }

  lemma PermissionIsClear(l: Ledger, db: Db, now: Instant, source: Source, active: bool, d: Day)
    requires Clear(l, d) && now.day != d
    ensures
      && Clear(SetPermission(l, db, now, source, active).0, d)
      && AllClear(PermissionEvents(l, db, now, source, active), d)
  {
    hide Change, Invalidate, ChangeEvents, CheckSource, Clear;
    var begun := BeginCapture(l);
    BegunIsClear(l, d);
    CheckSourceIsClear(begun, source, now.day, d);
    var checked := CheckSource(begun, source, now.day);
    ChangeIsClear(checked, db, now, active, d);
    InvalidateIsClear(Change(checked, db, now, active).0, now, PermissionSnapshotUnretained, false, d);
  }

  lemma MarkStaleIsClear(l: Ledger, day: Day, observedAt: Option<Instant>, d: Day)
    requires Clear(l, d) && day != d
    ensures Clear(MarkStale(l, day, observedAt), d)
  {
    hide Mark, MarkLast;
    MarkIsClear(l, day, MissingCurrentProcessBoundary, d);
    MarkIsClear(l, day, ObservationGapOrClockChange, d);
    MarkLastIsClear(Mark(l, day, ObservationGapOrClockChange), ObservationGapOrClockChange, d);
  }

  lemma ReportIsClear(l: Ledger, db: Db, day: Day, source: Source, observedAt: Option<Instant>, d: Day)
    requires Clear(l, d) && day != d
    requires
      !l.checkpointLoaded && ReadSummary(l, db, day, source, observedAt).0.checkpointLoaded ==>
        Harmless(db.checkpoint, d)
    ensures Clear(ReadSummary(l, db, day, source, observedAt).0, d)
  {
    hide MarkStale, LoadCheckpoint, CheckSource, Summarize, Clear;
    MarkStaleFrame(l, day, observedAt);
    MarkStaleIsClear(l, day, observedAt, d);
    var stale := MarkStale(l, day, observedAt);
    var loaded := LoadCheckpoint(stale, db, day).0;
    CheckSourceFrame(loaded, source, day);
    if observedAt.Some? ==> observedAt.value.aware {
      LoadingIsClear(stale, db, day, d);
      CheckSourceIsClear(loaded, source, day, d);
    }
  }

  lemma AcceptIsClear(l: Ledger, key: Key, reply: Reply, d: Day)
    requires Clear(l, d) && (!l.checkpointLoaded && reply.checkpointRead ==> Harmless(reply.checkpoint, d))
    ensures Clear(Accept(l, key, reply), d)
  {
  }

  // ---------------------------------------------------------------- runs on other days

  /** A session that works on other days doubts this one only by learning the checkpoint that it found. */
  ghost predicate Untouched(s: System, lesson: Option<Option<Saved>>, d: Day, origin: Db) {
    lesson != Some(origin.checkpoint) ==>
      && Clear(s.ledger, d) && AllClear(s.queued, d)
      && (forall i :: 0 <= i < |s.replies| && Reads(s.replies[i]) ==>
            s.replies[i].reply.checkpoint == origin.checkpoint || Harmless(s.replies[i].reply.checkpoint, d))
  }

  lemma OwnCheckpointIsHarmless(s: System, d: Day, origin: Db)
    requires Inv(s, origin) && AllClear(s.queued, d)
    ensures s.db.checkpoint == origin.checkpoint || Harmless(s.db.checkpoint, d)
  {
    CheckpointIsFoundOrOwn(s, origin);
    KeptIsNatural(s, origin);
  }

  lemma MoreIsClear(queued: seq<Event>, events: seq<Event>, d: Day)
    requires AllClear(queued, d) && AllClear(events, d)
    ensures AllClear(queued + events, d)
  {
  }

  /** A ledger that stays clear through an operation that neither works nor accepts. */
  lemma EventLoopKeepsUntouched(s: System, op: Op, lesson: Option<Option<Saved>>, d: Day, origin: Db)
    requires Inv(s, origin) && LessonHolds(s, lesson, origin) && Untouched(s, lesson, d, origin) && Elsewhere(op, d)
    requires op.Read? || op.Permit? || op.Report?
    ensures Untouched(Apply(s, op, origin), NextLesson(s, op, Apply(s, op, origin), lesson), d, origin)
  {
    hide Inv, HonestReplies, RecordReading, SetPermission, ReadSummary, Clear, AllClear;
    if NextLesson(s, op, Apply(s, op, origin), lesson) != Some(origin.checkpoint) {
      OwnCheckpointIsHarmless(s, d, origin);
      match op
      case Read(r) =>
        RecordIsClear(s.ledger, s.db, r, d);
        MoreIsClear(s.queued, RecordedEvents(s.ledger, s.db, r), d);
      case Permit(now, source, active) =>
        PermissionIsClear(s.ledger, s.db, now, source, active, d);
        MoreIsClear(s.queued, PermissionEvents(s.ledger, s.db, now, source, active), d);
      case Report(day, source, observedAt) => ReportIsClear(s.ledger, s.db, day, source, observedAt, d);
    }
  }

  lemma WorkKeepsUntouched(s: System, lesson: Option<Option<Saved>>, d: Day, origin: Db)
    requires Inv(s, origin) && Untouched(s, lesson, d, origin)
    ensures Untouched(Finish(s, origin), lesson, d, origin)
  {
    hide Inv, RunJob, Clear, AllClear;
    if s.jobs != [] && lesson != Some(origin.checkpoint) {
      OwnCheckpointIsHarmless(s, d, origin);
      RunJobReads(s.db, s.jobs[0]);
    }
  }

  lemma DeliverKeepsUntouched(s: System, i: nat, again: bool, lesson: Option<Option<Saved>>, d: Day, origin: Db)
    requires LessonHolds(s, lesson, origin) && Untouched(s, lesson, d, origin) && i < |s.replies|
    ensures
      var s' := Apply(s, Deliver(i, again), origin);
      Untouched(s', NextLesson(s, Deliver(i, again), s', lesson), d, origin)
  {
    hide Accept, Clear, AllClear;
    var s' := Apply(s, Deliver(i, again), origin);
    var key, reply := s.replies[i].job.key, s.replies[i].reply;
    AcceptLearns(s.ledger, key, reply);
    if NextLesson(s, Deliver(i, again), s', lesson) != Some(origin.checkpoint) {
      AcceptIsClear(s.ledger, key, reply, d);
    }
  }

  lemma ApplyKeepsUntouched(s: System, op: Op, lesson: Option<Option<Saved>>, d: Day, origin: Db)
    requires Inv(s, origin) && LessonHolds(s, lesson, origin) && Untouched(s, lesson, d, origin) && Elsewhere(op, d)
    ensures Untouched(Apply(s, op, origin), NextLesson(s, op, Apply(s, op, origin), lesson), d, origin)
  {
    hide Inv, HonestReplies, RecordReading, SetPermission, Flush, Invalidate, ReadSummary, Accept, Finish, AllClear;
    match op
    case Capture =>
    case Read(r) => EventLoopKeepsUntouched(s, op, lesson, d, origin);
    case Permit(now, source, active) => EventLoopKeepsUntouched(s, op, lesson, d, origin);
    case Report(day, source, observedAt) => EventLoopKeepsUntouched(s, op, lesson, d, origin);
    case Dispute(now, reason, permissionUnknown) =>
      InvalidateFrame(s.ledger, now, reason, permissionUnknown);
      if lesson != Some(origin.checkpoint) {
        InvalidateIsClear(s.ledger, now, reason, permissionUnknown, d);
      }
    case Drain => FlushFrame(s.ledger, s.db);
    case Ask(day, source) =>
    case Work =>
      WorkKeepsUntouched(s, lesson, d, origin);
      FinishKeepsLedger(s, origin);
    case Abandon(i) =>
    case Deliver(i, again) =>
      if i < |s.replies| {
        DeliverKeepsUntouched(s, i, again, lesson, d, origin);
      }
    case Lose(i) =>
  }

  lemma {:induction false} RunKeepsUntouched(start: System, ops: seq<Op>, d: Day, origin: Db)
    requires Inv(start, origin) && LessonHolds(start, None, origin) && Untouched(start, None, d, origin)
    requires forall i :: 0 <= i < |ops| ==> Elsewhere(ops[i], d)
    ensures Untouched(Run(start, ops, origin), Lesson(start, ops, origin), d, origin)
  {
    hide Apply, Inv, LessonHolds, Untouched, Elsewhere;
    if ops != [] {
      var shorter := ops[..|ops| - 1];
      RunKeepsUntouched(start, shorter, d, origin);
      RunTeaches(start, shorter, origin);
      RunKeeps(start, shorter, origin);
      ApplyKeepsUntouched(Run(start, shorter, origin), ops[|ops| - 1], Lesson(start, shorter, origin), d, origin);
    }
  }

  // ---------------------------------------------------------------- the answer

  /** A known day stays known while no stored event carries it as unknown. */
  lemma {:induction false} KnownStays(db: Db, events: seq<Event>, d: Day)
    requires KnownIn(db, d) && AllClear(events, d)
    ensures KnownIn(InsertAll(db, events), d)
  {
    if events != [] {
      var shorter := events[..|events| - 1];
      assert forall i :: 0 <= i < |shorter| ==> shorter[i] == events[i];
      KnownStays(db, shorter, d);
    }
  }

  /** Nothing stands between the tables and an answer about the day: no fault, no queue, no tail, or a current cache. */
  predicate Served(s: System, d: Day) {
    && !s.ledger.tailPending
    && if s.ledger.deferred then
         s.ledger.cache.Some? && s.ledger.cache.value.key == CacheKey(s.ledger, d, s.ledger.source)
       else s.db.faults == [] && s.ledger.pending == []
  }

  lemma UntouchedDayIsKnown(s: System, d: Day, origin: Db)
    requires Inv(s, origin) && AllClear(s.queued, d) && KnownIn(origin, d)
    ensures Summarize(s.db, d).complete
  {
    var stored := s.queued[..Kept(s.db, origin)];
    assert forall i :: 0 <= i < |stored| ==> stored[i] == s.queued[i];
    KnownStays(origin, stored, d);
  }

  lemma ClearDayIsReported(l: Ledger, d: Day, stored: Summary)
    requires d !in l.unknownDays && l.pending == [] && !l.tailPending && stored.complete
    ensures Qualified(l, d, stored).complete
  {
  }

  lemma NewestIsHarmless(s: System, d: Day, origin: Db)
    requires Inv(s, origin) && AllClear(s.queued, d) && Kept(s.db, origin) > 0
    ensures Harmless(s.db.checkpoint, d)
  {
    CheckpointIsFoundOrOwn(s, origin);
  }

  lemma ServedAnswerIsComplete(s: System, d: Day, origin: Db)
    requires Inv(s, origin) && Clear(s.ledger, d) && AllClear(s.queued, d) && KnownIn(origin, d) && Served(s, d)
    requires Kept(s.db, origin) > 0 && (s.ledger.deferred ==> SummaryCache.Caching(s, origin))
    ensures Completes(s, d, s.ledger.source, None)
  {
    hide Inv, Summarize, Qualified;
    UntouchedDayIsKnown(s, d, origin);
    NewestIsHarmless(s, d, origin);
    var loaded := LoadCheckpoint(s.ledger, s.db, d).0;
    assert d !in loaded.unknownDays && CheckSource(loaded, s.ledger.source, d) == loaded;
    if s.ledger.deferred {
      ClearDayIsReported(loaded, d, s.ledger.cache.value.summary);
    } else {
      var read := LoadCheckpoint(s.ledger, s.db, d).1;
      assert read == s.db;
      ClearDayIsReported(loaded, d, Summarize(s.db, d));
    }
  }

  lemma StartIsUntouched(db: Db, session: Session, started: Instant, source: Source, limit: nat, deferred: bool, d: Day)
    requires started.day != d
    ensures Untouched(Start(db, session, started, source, limit, deferred), None, d, db)
  {
  }

  /**
   * The exact condition, in both modes. Take a session that works on other days than the one of the checkpoint it
   * found, a day known in the store. Whenever it can answer about that day from the tables, it reports the day complete
   * if and only if it has stored rows of its own without having learned that checkpoint.
   */
  lemma {:induction false} LastDayIsCompleteExactlyWhenMissed(
      db: Db, session: Session, started: Instant, source: Source, limit: nat, deferred: bool, ops: seq<Op>, d: Day)
    requires Opens(db, session) && IsLastDay(db, d) && KnownIn(db, d)
    requires started.day != d && forall i :: 0 <= i < |ops| ==> Elsewhere(ops[i], d)
    requires deferred ==> forall i :: 0 <= i < |ops| ==> InOrder(ops[i])
    requires Served(Run(Start(db, session, started, source, limit, deferred), ops, db), d)
    ensures
      var start := Start(db, session, started, source, limit, deferred);
      var s := Run(start, ops, db);
      Completes(s, d, s.ledger.source, None) <==> Missed(start, ops, db)
  {
    hide Completes, Inv, HonestReplies, Served, Elsewhere, InOrder, SummaryCache.Caching;
    var start := Start(db, session, started, source, limit, deferred);
    var s := Run(start, ops, db);
    LastDayIsIncompleteUnlessMissed(db, session, started, source, limit, deferred, ops, d, s.ledger.source, None);
    StartKeeps(db, session, started, source, limit, deferred);
    RunKeeps(start, ops, db);
    StartTeaches(db, session, started, source, limit, deferred);
    StartIsUntouched(db, session, started, source, limit, deferred, d);
    RunKeepsUntouched(start, ops, d, db);
    if s.ledger.deferred {
      RunKeepsMode(start, ops, db);
      SummaryCache.StartIsCaching(db, session, started, source, limit);
      SummaryCache.RunKeepsCaching(start, ops, db);
    }
    if Missed(start, ops, db) {
      ServedAnswerIsComplete(s, d, db);
    }
  }

  // ---------------------------------------------------------------- two runs that miss it

  const LAST_DAY: Day := "2024-01-01"
  const NEW_DAY: Day := "2024-01-03"
  const METER: Source := "meter"
  const NOON: Instant := Instant(NEW_DAY, 43200.0, true)
  const LEFT_AT: Instant := Instant(LAST_DAY, 86000.0, true)
  const LEFT: Event :=
    Event(EventId("a", 1), LAST_DAY, LEFT_AT, 0.0, None, false, Inactive,
          Checkpoint(METER, LAST_DAY, LEFT_AT, Some(1.0), false, true, false), map[], [LAST_DAY], None)
  const FIRST_READING: Reading := Reading(NOON, METER, Some(2.0), Some(0.0), None, false, false, true)

  /** What a session that knew its day and stopped early leaves behind. */
  function LeftBehind(faults: seq<Fault>): Db {
    Db([], [LEFT], Some(Saved(LEFT.id, LEFT.checkpoint)), map[LAST_DAY := Coverage(false, ContinuousCoverage)], faults)
  }

  lemma LeftBehindIsOpen(faults: seq<Fault>)
    ensures
      var db := LeftBehind(faults);
      && Opens(db, "b") && CheckpointIsNewest(db) && FromAnother(db, "b")
      && IsLastDay(db, LAST_DAY) && KnownIn(db, LAST_DAY) && NEW_DAY != LAST_DAY
  {
    assert LAST_DAY[9] != NEW_DAY[9];
  }

  /** The first reading of a new session, after its checkpoint read or without one, and its event. */
  function Begun(deferred: bool): Ledger {
    Fresh("b", NOON, METER, 256, deferred).(generation := 1)
  }

  const BOUNDARY: Sample := Sample(NOON, METER, Some(2.0), false, true)
  const FIRST_EVENT: Event :=
    Event(EventId("b", 1), NEW_DAY, NOON, 0.0, None, false, Inactive,
          Checkpoint(METER, NEW_DAY, NOON, Some(2.0), false, true, false), map[NEW_DAY := StartupOrLegacyHistory], [],
          None)

  lemma FirstReadingIsQueued(deferred: bool, db: Db)
    ensures
      var l := Begun(deferred);
      var after := l.(last := Some(BOUNDARY));
      && Advance(Observed(l, FIRST_READING), Current(FIRST_READING)) == after
      && NeedsEvent(l, Current(FIRST_READING), after)
      && PersistedEvents(after, db, ReadingInterval(l, FIRST_READING, BOUNDARY)) == [FIRST_EVENT]
      && TakeReading(l, db, FIRST_READING) ==
         Flush(after.(sequence := 1, pending := [FIRST_EVENT], retained := true, queuedRevision := 1), db)
  {
    var l := Begun(deferred);
    assert Observed(l, FIRST_READING) == l;
    assert [] + [FIRST_EVENT] == [FIRST_EVENT];
  }

  lemma StoredFirst(db: Db)
    requires db.faults == [] && db.rows == [LEFT]
    ensures Record(db, FIRST_EVENT) == (Inserted(db, FIRST_EVENT), Done)
  {
    assert LEFT.id.session[0] != FIRST_EVENT.id.session[0];
  }

  /** The synchronous session after its failed checkpoint read and its first reading. */
  lemma FailedReadLosesTheCheckpoint()
    ensures
      var db := LeftBehind([BeforeCommit]);
      var s := Apply(Start(db, "b", NOON, METER, 256, false), Read(FIRST_READING), db);
      && s.ledger.pending == [] && !s.ledger.tailPending && !s.ledger.checkpointLoaded && s.db.faults == []
      && s.db.rows == [LEFT, FIRST_EVENT] && s.ledger.source == METER && !s.ledger.deferred
  {
    hide TakeReading, Inserted, Record;
    var db := LeftBehind([BeforeCommit]);
    var start := Start(db, "b", NOON, METER, 256, false);
    var read := LeftBehind([]);
    assert BeginCapture(start.ledger) == Begun(false);
    assert db.faults == [BeforeCommit] && db.faults[1..] == [];
    assert LoadCheckpoint(Begun(false), db, NEW_DAY) == (Begun(false), read);
    FirstReadingIsQueued(false, read);
    StoredFirst(read);
    var queued := Begun(false).(last := Some(BOUNDARY), sequence := 1, pending := [FIRST_EVENT], retained := true,
                                queuedRevision := 1);
    assert FlushLoop(queued, read) == (queued.(pending := []), Inserted(read, FIRST_EVENT), Done) by {
      assert queued.pending[1..] == [];
      assert FlushLoop(queued.(pending := []), Inserted(read, FIRST_EVENT)).2 == Done;
    }
    InsertedRows(read);
  }

  lemma InsertedRows(db: Db)
    requires db.rows == [LEFT]
    ensures Inserted(db, FIRST_EVENT).rows == [LEFT, FIRST_EVENT] && Inserted(db, FIRST_EVENT).faults == db.faults
  {
  }

  /**
   * A checkpoint read that fails is not tried again before the same reading stores its row over the checkpoint, so the
   * last day of the session before is never put in doubt and is reported complete.
   */
  lemma AFailedReadReportsTheLastDayComplete()
    ensures
      var db := LeftBehind([BeforeCommit]);
      var s := Run(Start(db, "b", NOON, METER, 256, false), [Read(FIRST_READING)], db);
      Completes(s, LAST_DAY, METER, None)
  {
    hide Completes, Apply;
    var db, op := LeftBehind([BeforeCommit]), Read(FIRST_READING);
    var start, ops := Start(db, "b", NOON, METER, 256, false), [op];
    LeftBehindIsOpen([BeforeCommit]);
    FailedReadLosesTheCheckpoint();
    assert ops[..0] == [] && Run(start, ops, db) == Apply(start, op, db);
    assert FirstRow(start, ops, db) == StoredUninformed;
    FirstRowDecides(db, "b", NOON, METER, 256, ops);
    LastDayIsCompleteExactlyWhenMissed(db, "b", NOON, METER, 256, false, ops, LAST_DAY);
  }

  /** The deferred ledger after its first reading, and what the worker makes of its two snapshots. */
  function FirstWaits(): Ledger {
    Begun(true).(last := Some(BOUNDARY), sequence := 1, pending := [FIRST_EVENT], retained := true, queuedRevision := 1)
  }

  function Asked(day: Day): Job {
    Job(Key(1, 1, day, METER, 1), [FIRST_EVENT], day, true)
  }

  lemma FirstReadingWaits()
    ensures
      var start := Start(LeftBehind([]), "b", NOON, METER, 256, true);
      var s := Apply(start, Read(FIRST_READING), start.db);
      s.ledger == FirstWaits() && s.db == start.db && s.jobs == [] && s.replies == []
  {
    hide TakeReading;
    var start := Start(LeftBehind([]), "b", NOON, METER, 256, true);
    assert BeginCapture(start.ledger) == Begun(true);
    FirstReadingIsQueued(true, start.db);
  }

  lemma AskedSnapshot(day: Day)
    ensures Snapshot(FirstWaits(), day, METER) == Asked(day)
  {
  }

  lemma FirstJobStores()
    ensures
      var db := LeftBehind([]);
      RunJob(db, Asked(NEW_DAY)).0 == Inserted(db, FIRST_EVENT)
  {
    hide Inserted, Record, Summarize;
    var db := LeftBehind([]);
    StoredFirst(db);
    InsertedRows(db);
    assert [FIRST_EVENT][1..] == [];
    assert RecordBatch(db, [FIRST_EVENT]) == (Inserted(db, FIRST_EVENT), [FIRST_EVENT.id] + [], true);
  }

  lemma SecondJobFindsItsOwn()
    ensures
      var db := Inserted(LeftBehind([]), FIRST_EVENT);
      var own := Saved(FIRST_EVENT.id, FIRST_EVENT.checkpoint);
      RunJob(db, Asked(LAST_DAY)) ==
      (db, Reply([FIRST_EVENT.id], Some(own), true, Some(Summarize(db, LAST_DAY)), true))
  {
    hide Summarize;
    var db := Inserted(LeftBehind([]), FIRST_EVENT);
    assert db.rows == [LEFT, FIRST_EVENT] && db.rows[1] == FIRST_EVENT;
    assert db.(faults := Consume(db.faults)) == db;
    assert Record(db, FIRST_EVENT) == (db, Done);
    assert [FIRST_EVENT][1..] == [];
    assert RecordBatch(db, [FIRST_EVENT]) == (db, [FIRST_EVENT.id] + [], true);
    assert [FIRST_EVENT.id] + [] == [FIRST_EVENT.id] && NextFault(db.faults) == NoFault;
    assert db.checkpoint == Some(Saved(FIRST_EVENT.id, FIRST_EVENT.checkpoint));
  }

  lemma SecondReplyIsCached(stored: Summary)
    ensures
      var own := Saved(FIRST_EVENT.id, FIRST_EVENT.checkpoint);
      var l := Accept(FirstWaits(), Asked(LAST_DAY).key, Reply([FIRST_EVENT.id], Some(own), true, Some(stored), true));
      && l.deferred && !l.tailPending && l.source == METER && l.checkpointLoaded
      && l.cache.Some? && l.cache.value.key == CacheKey(l, LAST_DAY, METER)
  {
    assert [FIRST_EVENT][1..] == [];
    assert Retire([FIRST_EVENT], [FIRST_EVENT.id]) == [];
  }

  const BEFORE_DELIVERY: seq<Op> :=
    [Read(FIRST_READING), Ask(NEW_DAY, METER), Work, Lose(0), Ask(LAST_DAY, METER), Work]

  /** The reply that read the found checkpoint is lost; the next snapshot reads the session's own. */
  lemma LostReplyLeavesTheSecond()
    ensures
      var db := LeftBehind([]);
      var s := Run(Start(db, "b", NOON, METER, 256, true), BEFORE_DELIVERY, db);
      var after := Inserted(db, FIRST_EVENT);
      && s.ledger == FirstWaits() && s.db == after && |s.replies| == 1 && s.replies[0].job == Asked(LAST_DAY)
      && s.replies[0].reply == RunJob(after, Asked(LAST_DAY)).1
  {
    hide RunJob, Inserted, Accept, RecordReading, FirstWaits, Run;
    var db := LeftBehind([]);
    var start, ops := Start(db, "b", NOON, METER, 256, true), BEFORE_DELIVERY;
    FirstReadingWaits();
    var s1 := Apply(start, Read(FIRST_READING), db);
    RunOne(start, Read(FIRST_READING), db);
    var s3 := FirstJobIsDone(s1);
    RunOneMore(start, [ops[0]], ops[1], db);
    RunOneMore(start, [ops[0]] + [ops[1]], ops[2], db);
    var s6 := SecondJobIsDone(s3);
    RunOneMore(start, ([ops[0]] + [ops[1]]) + [ops[2]], ops[3], db);
    RunOneMore(start, (([ops[0]] + [ops[1]]) + [ops[2]]) + [ops[3]], ops[4], db);
    RunOneMore(start, ((([ops[0]] + [ops[1]]) + [ops[2]]) + [ops[3]]) + [ops[4]], ops[5], db);
    assert ops == (((([ops[0]] + [ops[1]]) + [ops[2]]) + [ops[3]]) + [ops[4]]) + [ops[5]];
  }

  lemma RunOne(start: System, op: Op, origin: Db)
    ensures Run(start, [op], origin) == Apply(start, op, origin)
  {
    hide Apply;
    assert [op][..0] == [];
  }

  lemma RunOneMore(start: System, ops: seq<Op>, op: Op, origin: Db)
    ensures Run(start, ops + [op], origin) == Apply(Run(start, ops, origin), op, origin)
  {
    hide Apply;
    assert (ops + [op])[..|ops|] == ops;
  }

  lemma FirstJobIsDone(s: System) returns (s3: System)
    requires s.ledger == FirstWaits() && s.db == LeftBehind([]) && s.jobs == [] && s.replies == []
    ensures s3 == Apply(Apply(s, Ask(NEW_DAY, METER), LeftBehind([])), Work, LeftBehind([]))
    ensures s3.ledger == FirstWaits() && s3.db == Inserted(LeftBehind([]), FIRST_EVENT)
    ensures s3.jobs == [] && |s3.replies| == 1
  {
    hide RunJob, Inserted, FirstWaits;
    AskedSnapshot(NEW_DAY);
    FirstJobStores();
    s3 := Apply(Apply(s, Ask(NEW_DAY, METER), LeftBehind([])), Work, LeftBehind([]));
  }

  lemma SecondJobIsDone(s: System) returns (s6: System)
    requires s.ledger == FirstWaits() && s.db == Inserted(LeftBehind([]), FIRST_EVENT)
    requires s.jobs == [] && |s.replies| == 1
    ensures
      s6 == Apply(Apply(Apply(s, Lose(0), LeftBehind([])), Ask(LAST_DAY, METER), LeftBehind([])), Work, LeftBehind([]))
    ensures s6.ledger == FirstWaits() && s6.db == s.db && |s6.replies| == 1 && s6.replies[0].job == Asked(LAST_DAY)
    ensures s6.replies[0].reply == RunJob(s.db, Asked(LAST_DAY)).1
  {
    hide RunJob, Inserted, FirstWaits;
    AskedSnapshot(LAST_DAY);
    SecondJobFindsItsOwn();
    var s4 := Apply(s, Lose(0), LeftBehind([]));
    assert s4.replies == [];
    s6 := Apply(Apply(s4, Ask(LAST_DAY, METER), LeftBehind([])), Work, LeftBehind([]));
  }

  /** With a worker, dropping the reply of the first snapshot has the same effect. */
  lemma ADroppedReplyReportsTheLastDayComplete()
    ensures
      var db := LeftBehind([]);
      var s := Run(Start(db, "b", NOON, METER, 256, true), BEFORE_DELIVERY + [Deliver(0, false)], db);
      Completes(s, LAST_DAY, METER, None)
  {
    hide Completes, Inserted, RunJob, Accept, FirstWaits, Summarize, Inv, HonestReplies;
    var db := LeftBehind([]);
    var start, ops := Start(db, "b", NOON, METER, 256, true), BEFORE_DELIVERY + [Deliver(0, false)];
    var before, s := Run(start, BEFORE_DELIVERY, db), Run(start, ops, db);
    LostReplyLeavesTheSecond();
    SecondJobFindsItsOwn();
    InsertedRows(db);
    SecondReplyIsCached(Summarize(Inserted(db, FIRST_EVENT), LAST_DAY));
    LeftBehindIsOpen([]);
    assert ops[..|ops| - 1] == BEFORE_DELIVERY && s == Apply(before, Deliver(0, false), db);
    StartKeeps(db, "b", NOON, METER, 256, true);
    StartTeaches(db, "b", NOON, METER, 256, true);
    RunTeaches(start, BEFORE_DELIVERY, db);
    NothingLearnedYet();
    assert Missed(start, ops, db);
    forall i | 0 <= i < |ops| ensures Elsewhere(ops[i], LAST_DAY) && InOrder(ops[i]) {
    }
    LastDayIsCompleteExactlyWhenMissed(db, "b", NOON, METER, 256, true, ops, LAST_DAY);
  }

  lemma NothingLearnedYet()
    ensures !FirstWaits().checkpointLoaded
  {
  }
}
