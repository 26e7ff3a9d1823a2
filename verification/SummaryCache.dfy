/** In deferred mode the cached summary stands in for a read of the store. */
module SummaryCache {
  import opened Options
  import opened Accounting
  import opened ImportStateStore
  import opened ImportLedgerSpec
  import opened Reconciliation
  import opened DurableHistory
  import opened ExactlyOnce

  /** A reply knows how much was stored when it was made, and its summary is of the tables at that moment. */
  ghost predicate Honest(f: Finished, l: Ledger, db: Db, origin: Db, queued: seq<Event>) {
    && Popped(l, queued) <= f.seen <= Kept(db, origin)
    && Acknowledges(f.reply.acknowledged, queued, f.seen)
    && f.job.key.day == f.job.day
    && (f.reply.successful ==>
          f.reply.summary.Some? && (f.seen == Kept(db, origin) ==> f.reply.summary.value == Summarize(db, f.job.day)))
  }

  /** A cached summary is of tables that hold every event queued so far. */
  ghost predicate CacheHolds(l: Ledger, db: Db) {
    l.cache.Some? ==> l.pending == [] && l.cache.value.summary == Summarize(db, l.cache.value.key.day)
  }

  ghost predicate Caching(s: System, origin: Db) {
    && s.ledger.deferred
    && CacheHolds(s.ledger, s.db)
    && (forall i :: 0 <= i < |s.jobs| ==> s.jobs[i].key.day == s.jobs[i].day)
    && (forall i :: 0 <= i < |s.replies| ==> Honest(s.replies[i], s.ledger, s.db, origin, s.queued))
    && (forall i, j :: 0 <= i < j < |s.replies| ==> s.replies[i].seen <= s.replies[j].seen)
  }

  // ---------------------------------------------------------------- deferred operations touch only the queue

  /** What a deferred capture leaves: the same tables, a longer queue and no cache. */
  ghost predicate Queues(l: Ledger, db: Db, l': Ledger, db': Db, events: seq<Event>) {
    db' == db && l'.pending == l.pending + events && l'.cache.None? && l'.deferred
  }

  lemma DeferredPersist(l: Ledger, db: Db, i: Interval)
    requires l.deferred && l.cache.None?
    ensures Queues(l, db, Persist(l, db, i).0, Persist(l, db, i).1, PersistedEvents(l, db, i))
  {
    assert l.pending + [] == l.pending;
  }

  lemma DeferredReading(l: Ledger, db: Db, r: Reading)
    requires l.deferred && l.cache.None?
    ensures Queues(l, db, TakeReading(l, db, r).0, TakeReading(l, db, r).1, ReadingEvents(l, db, r))
  {
    ObservedFrame(l, r);
    var after := Advance(Observed(l, r), Current(r));
    DeferredPersist(after, db, ReadingInterval(l, r, after.last.value));
    assert l.pending + [] == l.pending;
  }

  lemma DeferredInvalidate(l: Ledger, now: Instant, reason: Reason, permissionUnknown: bool)
    ensures
      var l' := Invalidate(l, now, reason, permissionUnknown);
      l'.pending == l.pending && l'.cache.None? && l'.deferred == l.deferred
  {
    InvalidateFrame(l, now, reason, permissionUnknown);
  }

  lemma DeferredRecord(l: Ledger, db: Db, r: Reading)
    requires l.deferred
    ensures
      var (l', db', _) := RecordReading(l, db, r);
      Queues(l, db, l', db', RecordedEvents(l, db, r))
  {
    var begun := BeginCapture(l);
    assert l.pending + [] == l.pending;
    DeferredInvalidate(begun, r.now, IntervalSnapshotUnretained, false);
    DeferredReading(begun, db, r);
    DeferredInvalidate(TakeReading(begun, db, r).0, r.now, IntervalSnapshotUnretained, false);
  }

  lemma DeferredChange(l: Ledger, db: Db, now: Instant, active: bool)
    requires l.deferred && l.cache.None?
    ensures Queues(l, db, Change(l, db, now, active).0, Change(l, db, now, active).1, ChangeEvents(l, db, now, active))
  {
    hide Persist, Invalidate, PersistedEvents;
    assert l.pending + [] == l.pending;
    DeferredInvalidate(l, now, MissingInitialBoundary, false);
    if l.last.Some? {
      var owned := ChangeOwner(l, active);
      DeferredPersist(owned, db, PermissionInterval(owned.last.value, now));
    }
  }

  lemma DeferredPermission(l: Ledger, db: Db, now: Instant, source: Source, active: bool)
    requires l.deferred
    ensures
      var (l', db', _) := SetPermission(l, db, now, source, active);
      Queues(l, db, l', db', PermissionEvents(l, db, now, source, active))
  {
    var begun := BeginCapture(l);
    CheckSourceFrame(begun, source, now.day);
    var checked := CheckSource(begun, source, now.day);
    DeferredChange(checked, db, now, active);
    DeferredInvalidate(Change(checked, db, now, active).0, now, PermissionSnapshotUnretained, false);
  }

  // ---------------------------------------------------------------- steps

  lemma QueueingKeepsCaching(s: System, s': System, origin: Db, events: seq<Event>)
    requires Caching(s, origin)
    requires Queues(s.ledger, s.db, s'.ledger, s'.db, events) && s'.queued == s.queued + events
    requires s'.jobs == s.jobs && s'.replies == s.replies
    ensures Caching(s', origin)
  {
    forall i | 0 <= i < |s.replies|
      ensures Honest(s'.replies[i], s'.ledger, s'.db, origin, s'.queued)
    {
      AcknowledgesGrows(s.replies[i].reply.acknowledged, s.queued, s.replies[i].seen, s'.queued, s.replies[i].seen);
    }
  }

  lemma SummaryOfSameTables(a: Db, b: Db, d: Day)
    requires SameTables(a, b)
    ensures Summarize(a, d) == Summarize(b, d)
  {
  }

  lemma WorkKeepsHonesty(f: Finished, l: Ledger, db: Db, db': Db, origin: Db, queued: seq<Event>)
    requires Honest(f, l, db, origin, queued) && Moved(db, queued, l, db', queued, origin)
    ensures Honest(f, l, db', origin, queued)
  {
    if Kept(db', origin) == Kept(db, origin) {
      SummaryOfSameTables(db', db, f.job.day);
    }
  }

  lemma NewReplyIsHonest(l: Ledger, db: Db, job: Job, origin: Db, queued: seq<Event>)
    requires Delivering(l, db, origin, queued) && Slice(job.payloads, queued, Kept(db, origin))
    requires job.key.day == job.day
    ensures
      var (db', reply) := RunJob(db, job);
      Honest(Finished(job, reply, Kept(db', origin)), l, db', origin, queued)
  {
    RunJobDelivers(l, db, job, origin, queued);
    var (db', reply) := RunJob(db, job);
    if reply.successful {
      var read := if job.loadCheckpoint then db.(faults := Consume(db.faults)) else db;
      SummaryOfSameTables(RecordBatch(read, job.payloads).0, db', job.day);
    }
  }

  lemma FinishKeepsCaching(s: System, origin: Db)
    requires Inv(s, origin) && Caching(s, origin)
    ensures Caching(Finish(s, origin), origin)
  {
    hide Summarize;
    if s.jobs != [] {
      RunJobDelivers(s.ledger, s.db, s.jobs[0], origin, s.queued);
      NewReplyIsHonest(s.ledger, s.db, s.jobs[0], origin, s.queued);
      var s' := Finish(s, origin);
      if s.ledger.cache.Some? {
        SummaryOfSameTables(s'.db, s.db, s.ledger.cache.value.key.day);
      }
      forall i | 0 <= i < |s.replies|
        ensures Honest(s'.replies[i], s'.ledger, s'.db, origin, s'.queued)
      {
        WorkKeepsHonesty(s.replies[i], s.ledger, s.db, s'.db, origin, s.queued);
      }
    }
  }

  lemma AcceptKeepsCache(l: Ledger, db: Db, f: Finished, origin: Db, queued: seq<Event>)
    requires Delivering(l, db, origin, queued) && CacheHolds(l, db) && Honest(f, l, db, origin, queued)
    ensures
      var l' := Accept(l, f.job.key, f.reply);
      && CacheHolds(l', db) && l'.deferred == l.deferred
      && Popped(l, queued) <= Popped(l', queued) <= f.seen
  {
    RetireDelivers(l, db, f.reply.acknowledged, f.seen, origin, queued);
    LearnedFrame(Retired(l, f.reply), f.reply);
    var learned := Learned(Retired(l, f.reply), f.reply);
    assert learned.pending == Retire(l.pending, f.reply.acknowledged);
    if learned.pending == [] {
      assert f.seen == Kept(db, origin) == |queued|;
    }
  }

  lemma DeliverKeepsCaching(s: System, origin: Db)
    requires Inv(s, origin) && Caching(s, origin)
    ensures Caching(Apply(s, Deliver(0, false), origin), origin)
  {
    hide Accept;
    if s.replies != [] {
      AcceptKeepsCache(s.ledger, s.db, s.replies[0], origin, s.queued);
      var s' := Apply(s, Deliver(0, false), origin);
      assert s'.replies == s.replies[1..];
    }
  }

  lemma ReportKeepsCaching(s: System, s': System, origin: Db)
    requires Caching(s, origin)
    requires OnlyMarks(s.ledger.(checkpointLoaded := s'.ledger.checkpointLoaded), s'.ledger)
    requires s' == s.(ledger := s'.ledger, db := s'.db) && SameTables(s'.db, s.db)
    ensures Caching(s', origin)
  {
    if s.ledger.cache.Some? {
      SummaryOfSameTables(s'.db, s.db, s.ledger.cache.value.key.day);
    }
    forall i | 0 <= i < |s.replies|
      ensures Honest(s'.replies[i], s'.ledger, s'.db, origin, s'.queued)
    {
      SummaryOfSameTables(s'.db, s.db, s.replies[i].job.day);
    }
  }

  lemma ApplyKeepsCaching(s: System, op: Op, origin: Db)
    requires Inv(s, origin) && Caching(s, origin) && InOrder(op)
    ensures Caching(Apply(s, op, origin), origin)
  {
    hide RecordReading, SetPermission, ReadSummary, Finish, Invalidate;
    var s' := Apply(s, op, origin);
    match op
    case Capture =>
    case Read(r) =>
      DeferredRecord(s.ledger, s.db, r);
      QueueingKeepsCaching(s, s', origin, RecordedEvents(s.ledger, s.db, r));
    case Permit(now, source, active) =>
      DeferredPermission(s.ledger, s.db, now, source, active);
      QueueingKeepsCaching(s, s', origin, PermissionEvents(s.ledger, s.db, now, source, active));
    case Dispute(now, reason, permissionUnknown) =>
      DeferredInvalidate(s.ledger, now, reason, permissionUnknown);
    case Drain =>
    case Ask(day, source) =>
    case Work => FinishKeepsCaching(s, origin);
    case Abandon(i) =>
    case Deliver(i, again) => DeliverKeepsCaching(s, origin);
    case Lose(i) =>
    case Report(day, source, observedAt) =>
      ReadSummaryFrame(s.ledger, s.db, day, source, observedAt);
      ReportKeepsCaching(s, s', origin);
  }

  lemma StartIsCaching(db: Db, session: Session, started: Instant, source: Source, limit: nat)
    ensures Caching(Start(db, session, started, source, limit, true), db)
  {
  }

  lemma {:induction false} RunKeepsCaching(s: System, ops: seq<Op>, origin: Db)
    requires Inv(s, origin) && Caching(s, origin)
    requires forall i :: 0 <= i < |ops| ==> InOrder(ops[i])
    ensures Caching(Run(s, ops, origin), origin)
  {
    if ops != [] {
      var shorter := ops[..|ops| - 1];
      RunKeeps(s, shorter, origin);
      RunKeepsCaching(s, shorter, origin);
      ApplyKeepsCaching(Run(s, shorter, origin), ops[|ops| - 1], origin);
    }
  }

  /** The answer is the fixed unknown summary, or the qualified store summary over every event queued so far. */
  ghost predicate AnswersLikeTheStore(s: System, origin: Db, day: Day, source: Source, observedAt: Option<Instant>) {
    var (l', _, answer) := ReadSummary(s.ledger, s.db, day, source, observedAt);
    answer.Some? ==>
      || answer.value == UnknownSummary(day)
      || (s.db.rows == origin.rows + s.queued && answer.value == Qualified(l', day, Summarize(s.db, day)))
  }

  lemma CacheAnswersLikeTheStore(s: System, origin: Db, day: Day, source: Source, observedAt: Option<Instant>)
    requires Inv(s, origin) && Caching(s, origin)
    ensures AnswersLikeTheStore(s, origin, day, source, observedAt)
  {
    ReadSummaryFrame(s.ledger, s.db, day, source, observedAt);
    var l' := ReadSummary(s.ledger, s.db, day, source, observedAt).0;
    if l'.cache.Some? {
      assert s.queued[..Kept(s.db, origin)] == s.queued;
    }
  }

  /** With one-by-one replies in the order they were finished, a served cache refines a read of the store. */
  lemma {:induction false} CacheRefinesTheRead(
      db: Db, session: Session, started: Instant, source: Source, limit: nat, ops: seq<Op>, day: Day, asked: Source,
      observedAt: Option<Instant>)
    requires Opens(db, session)
    requires forall i :: 0 <= i < |ops| ==> InOrder(ops[i])
    ensures
      AnswersLikeTheStore(Run(Start(db, session, started, source, limit, true), ops, db), db, day, asked, observedAt)
  {
    var start := Start(db, session, started, source, limit, true);
    StartKeeps(db, session, started, source, limit, true);
    RunKeeps(start, ops, db);
    RunKeepsCaching(start, ops, db);
    CacheAnswersLikeTheStore(Run(start, ops, db), db, day, asked, observedAt);
  }

  // ---------------------------------------------------------------- late replies

  /** No job or reply is keyed to a later observation than the ledger's. */
  ghost predicate KeysUpTo(s: System, generation: int) {
    && (forall i :: 0 <= i < |s.jobs| ==> s.jobs[i].key.generation <= generation)
    && (forall i :: 0 <= i < |s.replies| ==> s.replies[i].job.key.generation <= generation)
  }

  lemma PersistKeepsGeneration(l: Ledger, db: Db, i: Interval)
    ensures Persist(l, db, i).0.generation == l.generation
    ensures Persist(l, db, i).0.cache == l.cache
  {
    PersistFrame(l, db, i);
  }

  lemma RecordAdvances(l: Ledger, db: Db, r: Reading)
    ensures RecordReading(l, db, r).0.generation > l.generation
    ensures RecordReading(l, db, r).0.cache.None?
  {
    hide Persist, Flush, Invalidate, LoadCheckpoint, Observed;
    var begun := BeginCapture(l);
    InvalidateFrame(begun, r.now, IntervalSnapshotUnretained, false);
    LoadCheckpointFrame(begun, db, r.now.day);
    var (loaded, read) := LoadCheckpoint(begun, db, r.now.day);
    ObservedFrame(loaded, r);
    var after := Advance(Observed(loaded, r), Current(r));
    PersistKeepsGeneration(after, read, ReadingInterval(loaded, r, after.last.value));
    FlushFrame(after.(retained := true), read);
    InvalidateFrame(TakeReading(loaded, read, r).0, r.now, IntervalSnapshotUnretained, false);
  }

  lemma ChangeKeepsGeneration(l: Ledger, db: Db, now: Instant, active: bool)
    requires l.cache.None?
    ensures Change(l, db, now, active).0.generation >= l.generation
    ensures Change(l, db, now, active).0.cache.None?
  {
    InvalidateFrame(l, now, MissingInitialBoundary, false);
    FlushFrame(l.(retained := true), db);
    if l.last.Some? {
      var owned := ChangeOwner(l, active);
      PersistKeepsGeneration(owned, db, PermissionInterval(owned.last.value, now));
    }
  }

  lemma PermissionAdvances(l: Ledger, db: Db, now: Instant, source: Source, active: bool)
    ensures SetPermission(l, db, now, source, active).0.generation > l.generation
    ensures SetPermission(l, db, now, source, active).0.cache.None?
  {
    var begun := BeginCapture(l);
    CheckSourceFrame(begun, source, now.day);
    var checked := CheckSource(begun, source, now.day);
    ChangeKeepsGeneration(checked, db, now, active);
    InvalidateFrame(Change(checked, db, now, active).0, now, PermissionSnapshotUnretained, false);
  }

  /** A capture, a permission change or an invalidation: anything that withdraws trust in earlier snapshots. */
  predicate Withdraws(op: Op) {
    op.Capture? || op.Read? || op.Permit? || op.Dispute?
  }

  lemma {:induction false} WithdrawingAdvances(s: System, op: Op, origin: Db)
    requires Withdraws(op)
    ensures
      var s' := Apply(s, op, origin);
      && s'.ledger.generation > s.ledger.generation && s'.ledger.cache.None?
      && s'.jobs == s.jobs && s'.replies == s.replies
  {
    match op
    case Capture =>
    case Read(r) => RecordAdvances(s.ledger, s.db, r);
    case Permit(now, source, active) => PermissionAdvances(s.ledger, s.db, now, source, active);
    case Dispute(now, reason, permissionUnknown) => InvalidateFrame(s.ledger, now, reason, permissionUnknown);
  }

  lemma OtherOpsKeepKeys(s: System, op: Op, origin: Db)
    requires KeysUpTo(s, s.ledger.generation) && !Withdraws(op)
    ensures
      var s' := Apply(s, op, origin);
      && s'.ledger.generation == s.ledger.generation
      && KeysUpTo(s', s'.ledger.generation)
  {
    hide Flush, ReadSummary, RunJob;
    match op
    case Drain => FlushFrame(s.ledger, s.db);
    case Ask(day, source) =>
    case Work =>
    case Abandon(i) =>
    case Deliver(i, again) =>
      if i < |s.replies| {
        LearnedFrame(Retired(s.ledger, s.replies[i].reply), s.replies[i].reply);
      }
    case Lose(i) =>
    case Report(day, source, observedAt) => ReadSummaryFrame(s.ledger, s.db, day, source, observedAt);
  }

  lemma {:induction false} RunKeepsKeys(s: System, ops: seq<Op>, origin: Db)
    requires KeysUpTo(s, s.ledger.generation)
    ensures KeysUpTo(Run(s, ops, origin), Run(s, ops, origin).ledger.generation)
  {
    if ops != [] {
      var before := Run(s, ops[..|ops| - 1], origin);
      RunKeepsKeys(s, ops[..|ops| - 1], origin);
      if Withdraws(ops[|ops| - 1]) {
        WithdrawingAdvances(before, ops[|ops| - 1], origin);
      } else {
        OtherOpsKeepKeys(before, ops[|ops| - 1], origin);
      }
    }
  }

  /** A cached summary is keyed to the ledger's own observation. */
  ghost predicate CacheIsCurrent(l: Ledger) {
    l.cache.Some? ==> l.cache.value.key.generation == l.generation
  }

  lemma AcceptKeepsCacheCurrent(l: Ledger, key: Key, reply: Reply)
    requires CacheIsCurrent(l)
    ensures CacheIsCurrent(Accept(l, key, reply)) && Accept(l, key, reply).generation == l.generation
  {
    LearnedFrame(Retired(l, reply), reply);
  }

  lemma OtherOpsKeepCacheCurrent(s: System, op: Op, origin: Db)
    requires CacheIsCurrent(s.ledger) && !Withdraws(op)
    ensures
      var s' := Apply(s, op, origin);
      CacheIsCurrent(s'.ledger) && s'.ledger.generation == s.ledger.generation
  {
    hide Flush, ReadSummary, RunJob, Accept;
    match op
    case Drain => FlushFrame(s.ledger, s.db);
    case Ask(day, source) =>
    case Work =>
    case Abandon(i) =>
    case Deliver(i, again) =>
      if i < |s.replies| {
        AcceptKeepsCacheCurrent(s.ledger, s.replies[i].job.key, s.replies[i].reply);
      }
    case Lose(i) =>
    case Report(day, source, observedAt) => ReadSummaryFrame(s.ledger, s.db, day, source, observedAt);
  }

  lemma {:induction false} RunKeepsCacheCurrent(s: System, ops: seq<Op>, origin: Db)
    requires CacheIsCurrent(s.ledger)
    ensures
      var s' := Run(s, ops, origin);
      CacheIsCurrent(s'.ledger) && s'.ledger.generation >= s.ledger.generation
  {
    if ops != [] {
      var before := Run(s, ops[..|ops| - 1], origin);
      RunKeepsCacheCurrent(s, ops[..|ops| - 1], origin);
      if Withdraws(ops[|ops| - 1]) {
        WithdrawingAdvances(before, ops[|ops| - 1], origin);
      } else {
        OtherOpsKeepCacheCurrent(before, ops[|ops| - 1], origin);
      }
    }
  }

  /**
   * After any run and one capture, permission change or invalidation, and after anything that follows, new snapshots
   * and replies in any order included: whatever is cached answers a snapshot asked after the withdrawal. Every job and
   * every reply outstanding at the withdrawal carries an older key, so none of them can ever restore trust.
   */
  lemma {:induction false} LateRepliesNeverRestoreTrust(
      db: Db, session: Session, started: Instant, source: Source, limit: nat, deferred: bool, ops: seq<Op>,
      withdrawal: Op, later: seq<Op>)
    requires Withdraws(withdrawal)
    ensures
      var before := Run(Start(db, session, started, source, limit, deferred), ops, db);
      var last := Run(Apply(before, withdrawal, db), later, db).ledger;
      && KeysUpTo(before, before.ledger.generation)
      && (last.cache.Some? ==> last.cache.value.key.generation > before.ledger.generation)
  {
    var start := Start(db, session, started, source, limit, deferred);
    RunKeepsKeys(start, ops, db);
    var before := Run(start, ops, db);
    WithdrawingAdvances(before, withdrawal, db);
    RunKeepsCacheCurrent(Apply(before, withdrawal, db), later, db);
  }
}
