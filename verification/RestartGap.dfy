/** Whether a session learns, from the checkpoint it finds, which day the session before it left unfinished. */
module RestartGap {
  import opened Options
  import opened Accounting
  import opened ImportStateStore
  import opened ImportLedgerSpec
  import opened Reconciliation
  import opened DurableHistory
  import opened ExactlyOnce
  import SummaryCache
  import UnknownDays

  // ---------------------------------------------------------------- what a session learns

  /** The checkpoint that an operation hands to a ledger that has none yet. */
  function Taught(s: System, op: Op): Option<Saved> {
    if op.Deliver? && op.reply < |s.replies| then s.replies[op.reply].reply.checkpoint else s.db.checkpoint
  }

  function NextLesson(s: System, op: Op, s': System, before: Option<Option<Saved>>): Option<Option<Saved>> {
    if before.None? && s'.ledger.checkpointLoaded then Some(Taught(s, op)) else before
  }

  /** The checkpoint that the session took for its predecessor's, once it took one. */
  function Lesson(start: System, ops: seq<Op>, origin: Db): Option<Option<Saved>> {
    if ops == [] then None
    else
      var shorter, op := ops[..|ops| - 1], ops[|ops| - 1];
      NextLesson(Run(start, shorter, origin), op, Run(start, ops, origin), Lesson(start, shorter, origin))
  }

  /** The session has stored rows, and has not learned the checkpoint that it found. */
  predicate MissedAt(s: System, lesson: Option<Option<Saved>>, origin: Db) {
    Kept(s.db, origin) > 0 && lesson != Some(origin.checkpoint)
  }

  predicate Missed(start: System, ops: seq<Op>, origin: Db) {
    MissedAt(Run(start, ops, origin), Lesson(start, ops, origin), origin)
  }

  predicate IsLastDay(origin: Db, d: Day) {
    origin.checkpoint.Some? && origin.checkpoint.value.checkpoint.day == d
  }

  predicate KnownIn(db: Db, d: Day) {
    d in db.coverage && !db.coverage[d].unknown
  }

  // ---------------------------------------------------------------- the ledger's flag

  /** Nothing is learned and no doubt is dropped. */
  ghost predicate Steady(l: Ledger, l': Ledger) {
    && l'.checkpointLoaded == l.checkpointLoaded && l'.deferred == l.deferred && l'.session == l.session
    && forall d :: d in l.unknownDays ==> d in l'.unknownDays
  }

  lemma PersistIsSteady(l: Ledger, db: Db, i: Interval)
    ensures Steady(l, Persist(l, db, i).0)
  {
    hide Persist;
    PersistFrame(l, db, i);
  }

  lemma TakeReadingIsSteady(l: Ledger, db: Db, r: Reading)
    ensures Steady(l, TakeReading(l, db, r).0)
  {
    hide Persist, Flush, Observed;
    ObservedFrame(l, r);
    var after := Advance(Observed(l, r), Current(r));
    PersistIsSteady(after, db, ReadingInterval(l, r, after.last.value));
    FlushFrame(after.(retained := true), db);
  }

  lemma ChangeIsSteady(l: Ledger, db: Db, now: Instant, active: bool)
    ensures Steady(l, Change(l, db, now, active).0)
  {
    hide Persist, Flush, Invalidate;
    InvalidateFrame(l, now, MissingInitialBoundary, false);
    FlushFrame(l.(retained := true), db);
    if l.last.Some? {
      var owned := ChangeOwner(l, active);
      PersistIsSteady(owned, db, PermissionInterval(owned.last.value, now));
    }
  }

  lemma PermissionIsSteady(l: Ledger, db: Db, now: Instant, source: Source, active: bool)
    ensures Steady(l, SetPermission(l, db, now, source, active).0)
  {
    hide Change, Invalidate;
    var begun := BeginCapture(l);
    CheckSourceFrame(begun, source, now.day);
    var checked := CheckSource(begun, source, now.day);
    ChangeIsSteady(checked, db, now, active);
    InvalidateFrame(Change(checked, db, now, active).0, now, PermissionSnapshotUnretained, false);
  }

  /** A flag that rises does so with the day of the checkpoint marked; a raised flag stays. */
  ghost predicate Learns(l: Ledger, l': Ledger, taught: Option<Saved>) {
    && (forall d :: d in l.unknownDays ==> d in l'.unknownDays)
    && l'.deferred == l.deferred && l'.session == l.session
    && (l.checkpointLoaded ==> l'.checkpointLoaded)
    && (!l.checkpointLoaded && l'.checkpointLoaded && taught.Some? ==> taught.value.checkpoint.day in l'.unknownDays)
  }

  lemma LoadingLearns(l: Ledger, db: Db, day: Day)
    ensures Learns(l, LoadCheckpoint(l, db, day).0, db.checkpoint)
    ensures l.deferred ==> LoadCheckpoint(l, db, day).0.checkpointLoaded == l.checkpointLoaded
  {
  }

  lemma RecordLearns(l: Ledger, db: Db, r: Reading)
    ensures Learns(l, RecordReading(l, db, r).0, db.checkpoint)
    ensures l.deferred ==> RecordReading(l, db, r).0.checkpointLoaded == l.checkpointLoaded
  {
    hide TakeReading, Invalidate, LoadCheckpoint;
    var begun := BeginCapture(l);
    InvalidateFrame(begun, r.now, IntervalSnapshotUnretained, false);
    LoadingLearns(begun, db, r.now.day);
    var (loaded, read) := LoadCheckpoint(begun, db, r.now.day);
    TakeReadingIsSteady(loaded, read, r);
    InvalidateFrame(TakeReading(loaded, read, r).0, r.now, IntervalSnapshotUnretained, false);
  }

  lemma ReportLearns(l: Ledger, db: Db, day: Day, source: Source, observedAt: Option<Instant>)
    ensures Learns(l, ReadSummary(l, db, day, source, observedAt).0, db.checkpoint)
    ensures l.deferred ==> ReadSummary(l, db, day, source, observedAt).0.checkpointLoaded == l.checkpointLoaded
  {
    hide MarkStale, LoadCheckpoint, CheckSource, Summarize;
    MarkStaleFrame(l, day, observedAt);
    var stale := MarkStale(l, day, observedAt);
    LoadingLearns(stale, db, day);
    CheckSourceFrame(LoadCheckpoint(stale, db, day).0, source, day);
  }

  lemma AcceptLearns(l: Ledger, key: Key, reply: Reply)
    ensures
      var l' := Accept(l, key, reply);
      && Learns(l, l', reply.checkpoint)
      && (l'.checkpointLoaded <==> l.checkpointLoaded || reply.checkpointRead)
      && (l'.cache.Some? ==> l.cache.Some? || reply.successful)
  {
  }

  predicate Teaches(s: System, op: Op) {
    op.Deliver? && op.reply < |s.replies| && (s.replies[op.reply].reply.checkpointRead
                                              || s.replies[op.reply].reply.successful)
  }

  /** What one operation teaches, and what it may cache. */
  ghost predicate StepLearns(s: System, op: Op, s': System) {
    && Learns(s.ledger, s'.ledger, Taught(s, op))
    && (!s.ledger.checkpointLoaded && s'.ledger.checkpointLoaded ==>
          if s.ledger.deferred then Teaches(s, op) else Teaches(s, op) || op.Read? || op.Report?)
    && (Teaches(s, op) ==> s'.ledger.checkpointLoaded)
    && (s'.ledger.cache.Some? && s.ledger.cache.None? ==> Teaches(s, op) && s.replies[op.reply].reply.successful)
  }

  lemma ApplyLearns(s: System, op: Op, origin: Db)
    requires forall i :: 0 <= i < |s.replies| && s.replies[i].reply.successful ==> s.replies[i].reply.checkpointRead
    ensures StepLearns(s, op, Apply(s, op, origin))
  {
    hide RecordReading, SetPermission, Flush, Invalidate, ReadSummary, RunJob, Accept;
    match op
    case Capture =>
    case Read(r) =>
      RecordLearns(s.ledger, s.db, r);
      SummaryCache.RecordAdvances(s.ledger, s.db, r);
    case Permit(now, source, active) =>
      PermissionIsSteady(s.ledger, s.db, now, source, active);
      SummaryCache.PermissionAdvances(s.ledger, s.db, now, source, active);
    case Dispute(now, reason, permissionUnknown) => InvalidateFrame(s.ledger, now, reason, permissionUnknown);
    case Drain => FlushFrame(s.ledger, s.db);
    case Ask(day, source) =>
    case Work =>
    case Abandon(i) =>
    case Deliver(i, again) =>
      if i < |s.replies| {
        AcceptLearns(s.ledger, s.replies[i].job.key, s.replies[i].reply);
      }
    case Lose(i) =>
    case Report(day, source, observedAt) =>
      ReportLearns(s.ledger, s.db, day, source, observedAt);
      ReadSummaryFrame(s.ledger, s.db, day, source, observedAt);
  }

  // ---------------------------------------------------------------- the tables' checkpoint

  /** The singleton checkpoint is the one found at the start exactly while the session has stored nothing. */
  lemma CheckpointIsFoundOrOwn(s: System, origin: Db)
    requires Inv(s, origin)
    ensures Kept(s.db, origin) == 0 ==> s.db.checkpoint == origin.checkpoint
    ensures
      var kept := Kept(s.db, origin);
      kept > 0 ==>
        var e := s.queued[kept - 1];
        e.id.session == s.ledger.session && s.db.checkpoint == Some(Saved(e.id, e.checkpoint))
  {
    var kept := Kept(s.db, origin);
    if kept > 0 {
      InsertOneMore(origin, s.queued[..kept - 1], s.queued[kept - 1]);
      assert s.queued[..kept] == s.queued[..kept - 1] + [s.queued[kept - 1]];
    } else {
      assert s.queued[..kept] == [];
    }
  }

  /** Rows are never taken back. */
  lemma KeptGrows(s: System, op: Op, origin: Db)
    requires Inv(s, origin)
    ensures Kept(Apply(s, op, origin).db, origin) >= Kept(s.db, origin)
  {
    hide RecordReading, SetPermission, Flush, ReadSummary, RunJob, Delivering;
    match op
    case Capture =>
    case Read(r) => RecordDelivers(s.ledger, s.db, r, origin, s.queued);
    case Permit(now, source, active) => PermissionDelivers(s.ledger, s.db, now, source, active, origin, s.queued);
    case Dispute(now, reason, permissionUnknown) =>
    case Drain => FlushDelivers(s.ledger, s.db, origin, s.queued);
    case Ask(day, source) =>
    case Work =>
      if s.jobs != [] {
        RunJobDelivers(s.ledger, s.db, s.jobs[0], origin, s.queued);
      }
    case Abandon(i) =>
    case Deliver(i, again) =>
    case Lose(i) =>
    case Report(day, source, observedAt) => ReadSummaryFrame(s.ledger, s.db, day, source, observedAt);
  }

  // ---------------------------------------------------------------- the invariant

  /** What a job's own read of the checkpoint says. */
  predicate Reads(f: Finished) {
    f.job.loadCheckpoint && f.reply.checkpointRead
  }

  ghost predicate HonestReplies(s: System, origin: Db) {
    && (forall i :: 0 <= i < |s.replies| ==> s.replies[i].reply.successful ==> s.replies[i].reply.checkpointRead)
    && (!s.ledger.checkpointLoaded ==>
          && (forall i :: 0 <= i < |s.jobs| ==> s.jobs[i].loadCheckpoint)
          && (forall i :: 0 <= i < |s.replies| ==> s.replies[i].job.loadCheckpoint))
    && (Kept(s.db, origin) == 0 ==>
          forall i :: 0 <= i < |s.replies| && Reads(s.replies[i]) ==>
            s.replies[i].reply.checkpoint == origin.checkpoint)
  }

  ghost predicate LessonHolds(s: System, lesson: Option<Option<Saved>>, origin: Db) {
    && (lesson.Some? <==> s.ledger.checkpointLoaded)
    && (lesson.Some? && lesson.value.Some? ==> lesson.value.value.checkpoint.day in s.ledger.unknownDays)
    && (lesson.Some? && Kept(s.db, origin) == 0 ==> lesson == Some(origin.checkpoint))
    && (s.ledger.cache.Some? ==> s.ledger.checkpointLoaded)
    && HonestReplies(s, origin)
  }

  /** A job's reply: a summary only after a read, and the checkpoint as the tables held it when the job began. */
  lemma RunJobReads(db: Db, job: Job)
    ensures
      var (db', reply) := RunJob(db, job);
      && (reply.successful ==> reply.checkpointRead)
      && (job.loadCheckpoint && reply.checkpointRead ==> reply.checkpoint == db.checkpoint)
      && (job.loadCheckpoint && !reply.checkpointRead ==> db'.rows == db.rows)
  {
    hide RecordBatch, Summarize;
  }

  lemma WorkIsHonest(s: System, origin: Db)
    requires Inv(s, origin) && HonestReplies(s, origin)
    ensures HonestReplies(Finish(s, origin), origin)
  {
    hide RunJob, Delivering;
    if s.jobs != [] {
      RunJobReads(s.db, s.jobs[0]);
      RunJobDelivers(s.ledger, s.db, s.jobs[0], origin, s.queued);
      CheckpointIsFoundOrOwn(s, origin);
    }
  }

  lemma FinishKeepsLedger(s: System, origin: Db)
    ensures Finish(s, origin).ledger == s.ledger
  {
  }

  lemma ApplyIsHonest(s: System, op: Op, origin: Db)
    requires Inv(s, origin) && HonestReplies(s, origin)
    ensures HonestReplies(Apply(s, op, origin), origin)
  {
    hide RecordReading, SetPermission, Flush, Invalidate, ReadSummary, Finish, Accept;
    ApplyLearns(s, op, origin);
    KeptGrows(s, op, origin);
    if op.Work? {
      WorkIsHonest(s, origin);
      FinishKeepsLedger(s, origin);
    }
  }

  lemma KeptIsNatural(s: System, origin: Db)
    requires Inv(s, origin)
    ensures Kept(s.db, origin) >= 0
  {
  }

  lemma ApplyTeaches(s: System, op: Op, lesson: Option<Option<Saved>>, origin: Db)
    requires Inv(s, origin) && LessonHolds(s, lesson, origin)
    ensures LessonHolds(Apply(s, op, origin), NextLesson(s, op, Apply(s, op, origin), lesson), origin)
  {
    hide Apply, Inv, Kept;
    ApplyIsHonest(s, op, origin);
    ApplyLearns(s, op, origin);
    KeptGrows(s, op, origin);
    CheckpointIsFoundOrOwn(s, origin);
    KeptIsNatural(s, origin);
  }

  lemma {:induction false} RunTeaches(start: System, ops: seq<Op>, origin: Db)
    requires Inv(start, origin) && LessonHolds(start, None, origin)
    ensures LessonHolds(Run(start, ops, origin), Lesson(start, ops, origin), origin)
  {
    hide Apply, Inv, LessonHolds;
    if ops != [] {
      var shorter := ops[..|ops| - 1];
      RunTeaches(start, shorter, origin);
      RunKeeps(start, shorter, origin);
      ApplyTeaches(Run(start, shorter, origin), ops[|ops| - 1], Lesson(start, shorter, origin), origin);
    }
  }

  lemma StartTeaches(db: Db, session: Session, started: Instant, source: Source, limit: nat, deferred: bool)
    ensures LessonHolds(Start(db, session, started, source, limit, deferred), None, db)
  {
  }

  lemma StepKeepsMode(s: System, op: Op, lesson: Option<Option<Saved>>, origin: Db)
    requires LessonHolds(s, lesson, origin)
    ensures Apply(s, op, origin).ledger.deferred == s.ledger.deferred
  {
    hide Apply;
    ApplyLearns(s, op, origin);
  }

  lemma {:induction false} RunKeepsMode(start: System, ops: seq<Op>, origin: Db)
    requires Inv(start, origin) && LessonHolds(start, None, origin)
    ensures Run(start, ops, origin).ledger.deferred == start.ledger.deferred
  {
    hide Apply, Inv, LessonHolds;
    if ops != [] {
      var shorter := ops[..|ops| - 1];
      RunKeepsMode(start, shorter, origin);
      RunTeaches(start, shorter, origin);
      RunKeeps(start, shorter, origin);
      StepKeepsMode(Run(start, shorter, origin), ops[|ops| - 1], Lesson(start, shorter, origin), origin);
    }
  }

  // ---------------------------------------------------------------- the last day of the session before

  predicate Completes(s: System, d: Day, source: Source, observedAt: Option<Instant>) {
    var answer := ReadSummary(s.ledger, s.db, d, source, observedAt).2;
    answer.Some? && answer.value.complete
  }

  lemma DoubtedDayIsIncomplete(l: Ledger, db: Db, d: Day, source: Source, observedAt: Option<Instant>)
    requires d in ReadSummary(l, db, d, source, observedAt).0.unknownDays
    ensures
      var answer := ReadSummary(l, db, d, source, observedAt).2;
      answer.Some? ==> !answer.value.complete
  {
    hide MarkStale, LoadCheckpoint, CheckSource, Summarize;
  }

  /** Asking about the very day of an unlearned checkpoint marks it, whether the read succeeds or fails. */
  lemma UnlearnedReportDoubts(l: Ledger, db: Db, d: Day, source: Source, observedAt: Option<Instant>)
    requires !l.deferred && !l.checkpointLoaded && IsLastDay(db, d)
    requires observedAt.Some? ==> observedAt.value.aware
    ensures d in ReadSummary(l, db, d, source, observedAt).0.unknownDays
  {
    hide MarkStale, CheckSource, Summarize;
    MarkStaleFrame(l, d, observedAt);
    var stale := MarkStale(l, d, observedAt);
    var loaded := LoadCheckpoint(stale, db, d).0;
    assert d in loaded.unknownDays;
    CheckSourceFrame(loaded, source, d);
  }

  /** A deferred ledger answers only from a cache, and caches only once it has learned a checkpoint. */
  lemma DeferredAnswerIsLearned(s: System, lesson: Option<Option<Saved>>, origin: Db, d: Day, source: Source,
                                observedAt: Option<Instant>)
    requires LessonHolds(s, lesson, origin) && s.ledger.deferred && Completes(s, d, source, observedAt)
    ensures s.ledger.checkpointLoaded
  {
    hide MarkStale, CheckSource, Summarize, Qualified;
    MarkStaleFrame(s.ledger, d, observedAt);
    var stale := MarkStale(s.ledger, d, observedAt);
    CheckSourceFrame(stale, source, d);
  }

  lemma AwareWhenAnswered(s: System, d: Day, source: Source, observedAt: Option<Instant>)
    requires Completes(s, d, source, observedAt)
    ensures observedAt.Some? ==> observedAt.value.aware
  {
    hide MarkStale, LoadCheckpoint, CheckSource, Summarize, Qualified;
  }

  lemma CompleteIsMissed(s: System, lesson: Option<Option<Saved>>, origin: Db, d: Day, source: Source,
                         observedAt: Option<Instant>)
    requires Inv(s, origin) && LessonHolds(s, lesson, origin) && IsLastDay(origin, d)
    requires Completes(s, d, source, observedAt)
    ensures MissedAt(s, lesson, origin)
  {
    hide Inv, ReadSummary, HonestReplies;
    KeptIsNatural(s, origin);
    CheckpointIsFoundOrOwn(s, origin);
    AwareWhenAnswered(s, d, source, observedAt);
    if d in s.ledger.unknownDays {
      ReportLearns(s.ledger, s.db, d, source, observedAt);
      DoubtedDayIsIncomplete(s.ledger, s.db, d, source, observedAt);
    } else if !s.ledger.checkpointLoaded {
      if s.ledger.deferred {
        DeferredAnswerIsLearned(s, lesson, origin, d, source, observedAt);
      } else if Kept(s.db, origin) == 0 {
        UnlearnedReportDoubts(s.ledger, s.db, d, source, observedAt);
        DoubtedDayIsIncomplete(s.ledger, s.db, d, source, observedAt);
      }
    }
  }

  /**
   * In either mode, over any run: once the session has learned the checkpoint that it found, the day of that
   * checkpoint is unknown to it; and whatever it has learned, it reports that day complete only after it stored rows
   * of its own without having learned that checkpoint.
   */
  lemma {:induction false} LastDayIsIncompleteUnlessMissed(
      db: Db, session: Session, started: Instant, source: Source, limit: nat, deferred: bool, ops: seq<Op>, d: Day,
      asked: Source, observedAt: Option<Instant>)
    requires Opens(db, session) && IsLastDay(db, d)
    ensures
      var start := Start(db, session, started, source, limit, deferred);
      && (Lesson(start, ops, db) == Some(db.checkpoint) ==> d in Run(start, ops, db).ledger.unknownDays)
      && (Completes(Run(start, ops, db), d, asked, observedAt) ==> Missed(start, ops, db))
  {
    hide Completes, Inv, HonestReplies, MissedAt;
    var start := Start(db, session, started, source, limit, deferred);
    StartKeeps(db, session, started, source, limit, deferred);
    RunKeeps(start, ops, db);
    StartTeaches(db, session, started, source, limit, deferred);
    RunTeaches(start, ops, db);
    if Completes(Run(start, ops, db), d, asked, observedAt) {
      CompleteIsMissed(Run(start, ops, db), Lesson(start, ops, db), db, d, asked, observedAt);
    }
  }

  // ---------------------------------------------------------------- what decides it in synchronous mode

  /** Whether the ledger had its checkpoint by the end of the operation that stored the session's first row. */
  datatype Storing = NothingStored | StoredInformed | StoredUninformed

  function NextStoring(before: Storing, s: System, origin: Db): Storing {
    if before != NothingStored || Kept(s.db, origin) <= 0 then before
    else if s.ledger.checkpointLoaded then StoredInformed
    else StoredUninformed
  }

  function FirstRow(start: System, ops: seq<Op>, origin: Db): Storing {
    if ops == [] then NothingStored
    else NextStoring(FirstRow(start, ops[..|ops| - 1], origin), Run(start, ops, origin), origin)
  }

  /** A checkpoint that another session stored. */
  predicate FromAnother(origin: Db, session: Session) {
    origin.checkpoint.Some? && origin.checkpoint.value.id.session != session
  }

  /** A synchronous session has no worker, so it never asks for a snapshot. */
  predicate NoWorker(s: System) {
    !s.ledger.deferred && s.jobs == [] && s.replies == []
  }

  lemma ApplyKeepsNoWorker(s: System, op: Op, origin: Db)
    requires NoWorker(s) && !op.Ask?
    ensures NoWorker(Apply(s, op, origin))
    ensures Taught(s, op) == s.db.checkpoint
  {
    hide RecordReading, SetPermission, Flush, Invalidate, ReadSummary;
    match op
    case Read(r) => RecordLearns(s.ledger, s.db, r);
    case Permit(now, source, active) => PermissionIsSteady(s.ledger, s.db, now, source, active);
    case Dispute(now, reason, permissionUnknown) => InvalidateFrame(s.ledger, now, reason, permissionUnknown);
    case Drain => FlushFrame(s.ledger, s.db);
    case Report(day, source, observedAt) => ReadSummaryFrame(s.ledger, s.db, day, source, observedAt);
    case _ =>
  }

  ghost predicate Decided(s: System, lesson: Option<Option<Saved>>, first: Storing, origin: Db) {
    && NoWorker(s) && FromAnother(origin, s.ledger.session)
    && (first != NothingStored <==> Kept(s.db, origin) > 0)
    && (first == StoredInformed ==> lesson == Some(origin.checkpoint))
    && (first == StoredUninformed ==> lesson != Some(origin.checkpoint))
  }

  lemma LearnedStays(s: System, op: Op, origin: Db)
    requires NoWorker(s)
    ensures s.ledger.checkpointLoaded ==> Apply(s, op, origin).ledger.checkpointLoaded
  {
    hide Apply;
    ApplyLearns(s, op, origin);
  }

  lemma SuccessIsRead(s: System, origin: Db)
    requires HonestReplies(s, origin)
    ensures forall i :: 0 <= i < |s.replies| && s.replies[i].reply.successful ==> s.replies[i].reply.checkpointRead
  {
  }

  lemma ApplyDecides(s: System, op: Op, lesson: Option<Option<Saved>>, first: Storing, origin: Db)
    requires Inv(s, origin) && LessonHolds(s, lesson, origin) && Decided(s, lesson, first, origin) && !op.Ask?
    ensures
      var s' := Apply(s, op, origin);
      Decided(s', NextLesson(s, op, s', lesson), NextStoring(first, s', origin), origin)
  {
    hide Apply, Inv, HonestReplies, Kept;
    ApplyKeepsNoWorker(s, op, origin);
    SuccessIsRead(s, origin);
    ApplyLearns(s, op, origin);
    KeptGrows(s, op, origin);
    KeptIsNatural(s, origin);
    CheckpointIsFoundOrOwn(s, origin);
    LearnedStays(s, op, origin);
  }

  lemma {:induction false} RunDecides(start: System, ops: seq<Op>, origin: Db)
    requires Inv(start, origin) && LessonHolds(start, None, origin) && Decided(start, None, NothingStored, origin)
    requires forall i :: 0 <= i < |ops| ==> !ops[i].Ask?
    ensures Decided(Run(start, ops, origin), Lesson(start, ops, origin), FirstRow(start, ops, origin), origin)
  {
    hide Apply, Inv, LessonHolds, Decided;
    if ops != [] {
      var shorter := ops[..|ops| - 1];
      RunDecides(start, shorter, origin);
      RunTeaches(start, shorter, origin);
      RunKeeps(start, shorter, origin);
      ApplyDecides(Run(start, shorter, origin), ops[|ops| - 1], Lesson(start, shorter, origin),
                   FirstRow(start, shorter, origin), origin);
    }
  }

  lemma DecidedIsMissed(s: System, lesson: Option<Option<Saved>>, first: Storing, origin: Db)
    requires Decided(s, lesson, first, origin)
    ensures MissedAt(s, lesson, origin) <==> first == StoredUninformed
  {
  }

  lemma StartDecides(db: Db, session: Session, started: Instant, source: Source, limit: nat)
    requires FromAnother(db, session)
    ensures Decided(Start(db, session, started, source, limit, false), None, NothingStored, db)
  {
  }

  /** A synchronous session misses the checkpoint exactly when its first row is stored before the checkpoint is read. */
  lemma {:induction false} FirstRowDecides(
      db: Db, session: Session, started: Instant, source: Source, limit: nat, ops: seq<Op>)
    requires Opens(db, session) && FromAnother(db, session)
    requires forall i :: 0 <= i < |ops| ==> !ops[i].Ask?
    ensures
      var start := Start(db, session, started, source, limit, false);
      Missed(start, ops, db) <==> FirstRow(start, ops, db) == StoredUninformed
  {
    hide Inv, HonestReplies, Decided, MissedAt;
    var start := Start(db, session, started, source, limit, false);
    StartDecides(db, session, started, source, limit);
    StartKeeps(db, session, started, source, limit, false);
    StartTeaches(db, session, started, source, limit, false);
    RunDecides(start, ops, db);
    DecidedIsMissed(Run(start, ops, db), Lesson(start, ops, db), FirstRow(start, ops, db), db);
  }

  // ---------------------------------------------------------------- what decides it with a worker

  ghost predicate FirstReading(replies: seq<Finished>, i: int) {
    && 0 <= i < |replies| && replies[i].reply.checkpointRead
    && forall j :: 0 <= j < i ==> !replies[j].reply.checkpointRead
  }

  /** The first reply that read a checkpoint read the one found at the start. */
  ghost predicate Waiting(replies: seq<Finished>, origin: Db) {
    exists i :: FirstReading(replies, i) && replies[i].reply.checkpoint == origin.checkpoint
  }

  /** Either the found checkpoint was learned, or nothing was and the reply that teaches it is still to come. */
  ghost predicate OnItsWay(s: System, lesson: Option<Option<Saved>>, origin: Db) {
    && s.ledger.deferred
    && (lesson.Some? ==> lesson == Some(origin.checkpoint))
    && (lesson.None? && Kept(s.db, origin) > 0 ==> Waiting(s.replies, origin))
  }

  lemma {:induction false} SomeReplyIsFirst(replies: seq<Finished>, k: int)
    requires 0 <= k < |replies| && replies[k].reply.checkpointRead
    ensures exists i :: FirstReading(replies, i) && i <= k
  {
    if exists j :: 0 <= j < k && replies[j].reply.checkpointRead {
      var j :| 0 <= j < k && replies[j].reply.checkpointRead;
      SomeReplyIsFirst(replies, j);
    } else {
      assert FirstReading(replies, k);
    }
  }

  lemma WaitingLonger(replies: seq<Finished>, f: Finished, origin: Db)
    requires Waiting(replies, origin)
    ensures Waiting(replies + [f], origin)
  {
    var i :| FirstReading(replies, i) && replies[i].reply.checkpoint == origin.checkpoint;
    assert FirstReading(replies + [f], i);
  }

  lemma WaitingNext(replies: seq<Finished>, origin: Db)
    requires Waiting(replies, origin) && !replies[0].reply.checkpointRead
    ensures Waiting(replies[1..], origin)
  {
    var i :| FirstReading(replies, i) && replies[i].reply.checkpoint == origin.checkpoint;
    assert FirstReading(replies[1..], i - 1);
  }

  /** The job that stores the session's first row has read the checkpoint found at the start. */
  lemma FirstRowIsTaught(s: System, origin: Db)
    requires Inv(s, origin) && HonestReplies(s, origin) && !s.ledger.checkpointLoaded
    requires Kept(s.db, origin) == 0 && Kept(Finish(s, origin).db, origin) > 0
    ensures Waiting(Finish(s, origin).replies, origin)
  {
    hide RunJob, Delivering;
    var s' := Finish(s, origin);
    RunJobReads(s.db, s.jobs[0]);
    CheckpointIsFoundOrOwn(s, origin);
    var last := |s'.replies| - 1;
    assert s'.replies[last].reply.checkpointRead;
    SomeReplyIsFirst(s'.replies, last);
    var i :| FirstReading(s'.replies, i) && i <= last;
    assert i < last ==> s'.replies[i] == s.replies[i];
  }

  predicate Dropless(op: Op) {
    InOrder(op) && !op.Lose?
  }

  lemma WorkKeepsComing(s: System, lesson: Option<Option<Saved>>, origin: Db)
    requires Inv(s, origin) && LessonHolds(s, lesson, origin) && OnItsWay(s, lesson, origin)
    ensures OnItsWay(Finish(s, origin), lesson, origin)
  {
    hide RunJob, Delivering, Waiting;
    KeptIsNatural(s, origin);
    if lesson.None? && s.jobs != [] && Kept(Finish(s, origin).db, origin) > 0 {
      if Kept(s.db, origin) == 0 {
        FirstRowIsTaught(s, origin);
      } else {
        WaitingLonger(s.replies, Finish(s, origin).replies[|s.replies|], origin);
      }
    }
  }

  lemma DeferredFlushIsIdle(l: Ledger, db: Db)
    requires l.deferred
    ensures Flush(l, db) == (l, db, Done)
  {
  }

  /** An operation of the event loop itself stores nothing in deferred mode. */
  lemma DeferredOpKeepsTables(s: System, op: Op, origin: Db)
    requires s.ledger.deferred && !op.Work?
    ensures
      var s' := Apply(s, op, origin);
      && s'.db.rows == s.db.rows && s'.ledger.deferred
      && (!op.Deliver? && !op.Lose? ==> s'.replies == s.replies)
  {
    hide RecordReading, SetPermission, Flush, Invalidate, ReadSummary, Accept;
    match op
    case Read(r) =>
      SummaryCache.DeferredRecord(s.ledger, s.db, r);
    case Permit(now, source, active) =>
      SummaryCache.DeferredPermission(s.ledger, s.db, now, source, active);
    case Dispute(now, reason, permissionUnknown) => InvalidateFrame(s.ledger, now, reason, permissionUnknown);
    case Drain => DeferredFlushIsIdle(s.ledger, s.db);
    case Deliver(i, again) =>
      if i < |s.replies| {
        AcceptLearns(s.ledger, s.replies[i].job.key, s.replies[i].reply);
      }
    case Report(day, source, observedAt) => ReadSummaryFrame(s.ledger, s.db, day, source, observedAt);
    case _ =>
  }

  lemma FirstIsWaited(replies: seq<Finished>, origin: Db)
    requires Waiting(replies, origin) && replies != [] && replies[0].reply.checkpointRead
    ensures replies[0].reply.checkpoint == origin.checkpoint
  {
  }

  lemma DeliverKeepsComing(s: System, lesson: Option<Option<Saved>>, origin: Db)
    requires Inv(s, origin) && LessonHolds(s, lesson, origin) && OnItsWay(s, lesson, origin) && s.replies != []
    ensures
      var s' := Apply(s, Deliver(0, false), origin);
      OnItsWay(s', NextLesson(s, Deliver(0, false), s', lesson), origin)
  {
    hide Inv, Accept, Waiting;
    var s' := Apply(s, Deliver(0, false), origin);
    AcceptLearns(s.ledger, s.replies[0].job.key, s.replies[0].reply);
    KeptIsNatural(s, origin);
    assert s'.replies == s.replies[1..];
    if lesson.None? {
      if s.replies[0].reply.checkpointRead {
        if Kept(s.db, origin) > 0 {
          FirstIsWaited(s.replies, origin);
        }
      } else if Kept(s.db, origin) > 0 {
        WaitingNext(s.replies, origin);
      }
    }
  }

  lemma ApplyKeepsComing(s: System, op: Op, lesson: Option<Option<Saved>>, origin: Db)
    requires Inv(s, origin) && LessonHolds(s, lesson, origin) && OnItsWay(s, lesson, origin) && Dropless(op)
    ensures OnItsWay(Apply(s, op, origin), NextLesson(s, op, Apply(s, op, origin), lesson), origin)
  {
    hide Inv, Waiting, HonestReplies, RecordReading, SetPermission, Flush, Invalidate, ReadSummary, Accept, Finish;
    if op.Work? {
      WorkKeepsComing(s, lesson, origin);
      FinishKeepsLedger(s, origin);
    } else {
      DeferredOpKeepsTables(s, op, origin);
      SuccessIsRead(s, origin);
      ApplyLearns(s, op, origin);
      if op.Deliver? && s.replies != [] {
        DeliverKeepsComing(s, lesson, origin);
      }
    }
  }

  lemma {:induction false} RunKeepsComing(start: System, ops: seq<Op>, origin: Db)
    requires Inv(start, origin) && LessonHolds(start, None, origin) && OnItsWay(start, None, origin)
    requires forall i :: 0 <= i < |ops| ==> Dropless(ops[i])
    ensures OnItsWay(Run(start, ops, origin), Lesson(start, ops, origin), origin)
  {
    hide Apply, Inv, LessonHolds, OnItsWay, Dropless;
    if ops != [] {
      var shorter := ops[..|ops| - 1];
      RunKeepsComing(start, shorter, origin);
      RunTeaches(start, shorter, origin);
      RunKeeps(start, shorter, origin);
      ApplyKeepsComing(Run(start, shorter, origin), ops[|ops| - 1], Lesson(start, shorter, origin), origin);
    }
  }

  /** With a worker whose replies are taken in order and never dropped, the last day is never reported complete. */
  lemma {:induction false} WithoutDroppedRepliesNothingIsMissed(
      db: Db, session: Session, started: Instant, source: Source, limit: nat, ops: seq<Op>, d: Day, asked: Source,
      observedAt: Option<Instant>)
    requires Opens(db, session) && IsLastDay(db, d)
    requires forall i :: 0 <= i < |ops| ==> Dropless(ops[i])
    ensures !Completes(Run(Start(db, session, started, source, limit, true), ops, db), d, asked, observedAt)
  {
    hide Completes, Inv, HonestReplies, Waiting, Dropless;
    var start := Start(db, session, started, source, limit, true);
    StartKeeps(db, session, started, source, limit, true);
    StartTeaches(db, session, started, source, limit, true);
    RunKeepsComing(start, ops, db);
    RunTeaches(start, ops, db);
    RunKeeps(start, ops, db);
    var s := Run(start, ops, db);
    if Completes(s, d, asked, observedAt) {
      CompleteIsMissed(s, Lesson(start, ops, db), db, d, asked, observedAt);
      DeferredAnswerIsLearned(s, Lesson(start, ops, db), db, d, asked, observedAt);
    }
  }
}
