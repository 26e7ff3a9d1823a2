/** What a caller may conclude from a summary that calls its day complete. */
module CompleteDay {
  import opened Options
  import opened Accounting
  import opened ImportStateStore
  import opened ImportLedgerSpec
  import opened Reconciliation
  import opened DurableHistory
  import opened ExactlyOnce
  import opened DayTrust
  import opened SummaryCache
  import RestartGap
  import UnknownDays

  lemma {:induction false} LinesOfPrefix(queued: seq<Event>, kept: int, d: Day)
    requires 0 <= kept <= |queued|
    requires forall i :: kept <= i < |queued| ==> queued[i].day != d
    ensures EventLines(queued[..kept], d) == EventLines(queued, d)
    decreases |queued|
  {
    if kept < |queued| {
      var shorter := queued[..|queued| - 1];
      LinesOfPrefix(shorter, kept, d);
      assert shorter[..kept] == queued[..kept];
      assert EventLines(shorter, d) + [] == EventLines(shorter, d);
    } else {
      assert queued[..kept] == queued;
    }
  }

  lemma {:induction false} TotalOfConcat(a: seq<Line>, b: seq<Line>)
    ensures Total(a + b) == Total(a) + Total(b)
  {
    if b == [] {
      assert a + b == a;
    } else {
      var shorter := b[..|b| - 1];
      TotalOfConcat(a, shorter);
      assert (a + b)[..|a + b| - 1] == a + shorter;
    }
  }

  predicate Touches(o: Observation, d: Day) {
    o.current.now.day == d || (o.previous.Some? && o.previous.value.now.day == d)
  }

  /** A reading that touches the day on either side was proven. */
  ghost predicate ProvenThroughout(log: seq<Observation>, d: Day) {
    forall i :: 0 <= i < |log| && Touches(log[i], d) ==> EntryProven(log[i]) || StepProven(log[i])
  }

  /**
   * The session itself entered the day from proven evidence, or found it known in the store; the day of the checkpoint
   * that it found only if it missed that checkpoint.
   */
  ghost predicate Opened(log: seq<Observation>, origin: Db, missed: bool, d: Day) {
    Entered(log, d) || (RestartGap.KnownIn(origin, d) && (RestartGap.IsLastDay(origin, d) ==> missed))
  }

  /** Nothing about the day is still on its way to the store. */
  predicate Settled(l: Ledger, d: Day) {
    d !in l.unknownDays && !l.tailPending && forall i :: 0 <= i < |l.pending| ==> l.pending[i].day != d
  }

  /** Everything a complete answer promises about the session that gave it. */
  ghost predicate Vouched(s: System, origin: Db, missed: bool, l': Ledger, d: Day, answer: Summary) {
    && Settled(l', d)
    && ProvenThroughout(s.log, d)
    && Opened(s.log, origin, missed, d)
    && answer.totalKwh == Total(Lines(origin, d)) + LogKwh(s.log, d)
    && IsHighest(Lines(origin, d) + EventLines(s.queued, d), answer.highestPrice)
  }

  /** The answer is the qualified store summary of these tables. */
  ghost predicate FromTables(s: System, l': Ledger, d: Day, answer: Summary) {
    answer == Qualified(l', d, Summarize(s.db, d))
  }

  lemma SettledIsStored(s: System, origin: Db, d: Day)
    requires Inv(s, origin) && Settled(s.ledger, d)
    ensures EventLines(s.queued[..Kept(s.db, origin)], d) == EventLines(s.queued, d)
  {
    var popped := Popped(s.ledger, s.queued);
    forall i | Kept(s.db, origin) <= i < |s.queued|
      ensures s.queued[i].day != d
    {
      assert s.queued[i] == s.ledger.pending[i - popped];
    }
    LinesOfPrefix(s.queued, Kept(s.db, origin), d);
  }

  lemma CompleteIsOpened(s: System, origin: Db, missed: bool, d: Day)
    requires Inv(s, origin) && Knows(s.ledger, s.queued, s.log) && (RestartGap.IsLastDay(origin, d) ==> missed)
    requires d in s.db.coverage && !s.db.coverage[d].unknown
    ensures Opened(s.log, origin, missed, d)
  {
    var stored := s.queued[..Kept(s.db, origin)];
    InsertsCover(origin, stored);
    if OpenedBy(stored, d) {
      var i :| 0 <= i < |stored| && d in stored[i].completeDays;
      assert d in s.queued[i].completeDays;
    }
  }

  lemma CompleteIsVouched(s: System, origin: Db, missed: bool, l': Ledger, d: Day, answer: Summary)
    requires Inv(s, origin) && Knows(s.ledger, s.queued, s.log)
    requires Grows(s.ledger, l') && l'.pending == s.ledger.pending && l'.tailPending == s.ledger.tailPending
    requires FromTables(s, l', d, answer) && answer.complete && (RestartGap.IsLastDay(origin, d) ==> missed)
    ensures Vouched(s, origin, missed, l', d, answer)
  {
    var kept := Kept(s.db, origin);
    assert Settled(l', d);
    SettledIsStored(s, origin, d);
    InsertsAppendLines(origin, s.queued[..kept], d);
    TotalOfConcat(Lines(origin, d), EventLines(s.queued, d));
    SummaryOfSameTables(s.db, InsertAll(origin, s.queued[..kept]), d);
    CompleteIsOpened(s, origin, missed, d);
    forall i | 0 <= i < |s.log| && Touches(s.log[i], d)
      ensures EntryProven(s.log[i]) || StepProven(s.log[i])
    {
      assert Sound(s.log[i], s.ledger.unknownDays);
    }
  }

  /** In a day that is vouched for, the first reading of the session in that day is its proven entry. */
  lemma FirstReadingEnters(log: seq<Observation>, d: Day, i: int)
    requires Chained(log) && ProvenThroughout(log, d)
    requires 0 <= i < |log| && log[i].current.now.day == d
    requires forall k :: 0 <= k < i ==> log[k].current.now.day != d
    ensures EntryProven(log[i])
  {
    assert Touches(log[i], d);
    if i > 0 {
      assert SameMeasurement(log[i].previous.value, log[i - 1].current);
    }
  }

  ghost predicate CompleteMeansVouched(s: System, origin: Db, missed: bool, d: Day, source: Source,
                                       observedAt: Option<Instant>)
  {
    var (l', _, answer) := ReadSummary(s.ledger, s.db, d, source, observedAt);
    answer.Some? && answer.value.complete ==> Vouched(s, origin, missed, l', d, answer.value)
  }

  lemma SynchronousAnswerIsFromTables(s: System, d: Day, source: Source, observedAt: Option<Instant>)
    requires !s.ledger.deferred
    ensures
      var (l', _, answer) := ReadSummary(s.ledger, s.db, d, source, observedAt);
      answer.Some? && answer.value.complete ==> FromTables(s, l', d, answer.value)
  {
    var stale := MarkStale(s.ledger, d, observedAt);
    MarkStaleFrame(s.ledger, d, observedAt);
    LoadCheckpointFrame(stale, s.db, d);
    var (loaded, read) := LoadCheckpoint(stale, s.db, d);
    CheckSourceFrame(loaded, source, d);
    SummaryOfSameTables(read, s.db, d);
  }

  lemma AnswerIsVouched(s: System, lesson: Option<Option<Saved>>, origin: Db, d: Day, source: Source,
                        observedAt: Option<Instant>)
    requires Inv(s, origin) && Knows(s.ledger, s.queued, s.log) && RestartGap.LessonHolds(s, lesson, origin)
    requires s.ledger.deferred ==> Caching(s, origin)
    ensures CompleteMeansVouched(s, origin, RestartGap.MissedAt(s, lesson, origin), d, source, observedAt)
  {
    hide RestartGap.LessonHolds, RestartGap.MissedAt;
    ReadSummaryFrame(s.ledger, s.db, d, source, observedAt);
    var (l', _, answer) := ReadSummary(s.ledger, s.db, d, source, observedAt);
    if answer.Some? && answer.value.complete {
      if s.ledger.deferred {
        CacheAnswersLikeTheStore(s, origin, d, source, observedAt);
      } else {
        SynchronousAnswerIsFromTables(s, d, source, observedAt);
      }
      if RestartGap.IsLastDay(origin, d) {
        RestartGap.CompleteIsMissed(s, lesson, origin, d, source, observedAt);
      }
      CompleteIsVouched(s, origin, RestartGap.MissedAt(s, lesson, origin), l', d, answer.value);
    }
  }

  /**
   * In either mode, over any run (with replies taken in order when deferred): a summary that calls its day
   * complete means that no doubt, import tail or queued event of the day is outstanding; that every reading of
   * the session touching the day was a proven entry or a proven continuation; that the day was entered that way
   * or already known in the store, and if it is the day of the checkpoint found at the start, that the session missed
   * that checkpoint; and that its total is what the store held before plus exactly the energy measured, its highest
   * price the dearest of all of it.
   */
  lemma {:induction false} CompleteDayIsVouched(
      db: Db, session: Session, started: Instant, source: Source, limit: nat, deferred: bool, ops: seq<Op>, d: Day,
      asked: Source, observedAt: Option<Instant>)
    requires Opens(db, session)
    requires deferred ==> forall i :: 0 <= i < |ops| ==> InOrder(ops[i])
    ensures
      var start := Start(db, session, started, source, limit, deferred);
      CompleteMeansVouched(Run(start, ops, db), db, RestartGap.Missed(start, ops, db), d, asked, observedAt)
  {
    hide Inv, Knows, Caching, CompleteMeansVouched, RestartGap.LessonHolds, RestartGap.MissedAt;
    var start := Start(db, session, started, source, limit, deferred);
    StartKeeps(db, session, started, source, limit, deferred);
    StartKnows(db, session, started, source, limit, deferred);
    RestartGap.StartTeaches(db, session, started, source, limit, deferred);
    RestartGap.RunTeaches(start, ops, db);
    RunKeeps(start, ops, db);
    RunKnows(start, ops, db);
    RestartGap.RunKeepsMode(start, ops, db);
    if deferred {
      StartIsCaching(db, session, started, source, limit);
      RunKeepsCaching(start, ops, db);
    }
    AnswerIsVouched(Run(start, ops, db), RestartGap.Lesson(start, ops, db), db, d, asked, observedAt);
  }

  lemma UnknownDayIsNeverComplete(l: Ledger, db: Db, d: Day, source: Source, observedAt: Option<Instant>)
    requires d in l.unknownDays
    ensures
      var answer := ReadSummary(l, db, d, source, observedAt).2;
      answer.Some? ==> !answer.value.complete
  {
    hide Summarize, Flush, CheckSource;
    ReadSummaryFrame(l, db, d, source, observedAt);
    assert Doubt(ReadSummary(l, db, d, source, observedAt).0, d).Some?;
  }

  /** The day on which the session started is never reported complete by it. */
  lemma {:induction false} StartDayIsNeverComplete(
      db: Db, session: Session, started: Instant, source: Source, limit: nat, deferred: bool, ops: seq<Op>, asked:
      Source, observedAt: Option<Instant>)
    requires Opens(db, session)
    ensures
      var s := Run(Start(db, session, started, source, limit, deferred), ops, db);
      var answer := ReadSummary(s.ledger, s.db, started.day, asked, observedAt).2;
      answer.Some? ==> !answer.value.complete
  {
    var start := Start(db, session, started, source, limit, deferred);
    UnknownDays.RunCarries(start, ops, db);
    var s := Run(start, ops, db);
    assert started.day in s.ledger.unknownDays;
    UnknownDayIsNeverComplete(s.ledger, s.db, started.day, asked, observedAt);
  }

  lemma {:induction false} FaultFreeFlushEnds(l: Ledger, db: Db, origin: Db, queued: seq<Event>)
    requires Delivering(l, db, origin, queued) && db.faults == []
    ensures FlushLoop(l, db).2 == Done
    decreases |l.pending|
  {
    if l.pending != [] {
      var p := Popped(l, queued);
      assert l.pending[0] == queued[p];
      RecordNext(db, origin, queued, l.session, l.sequence, p);
      var db1 := Record(db, queued[p]).0;
      var l1 := l.(pending := l.pending[1..]);
      assert l1.pending == queued[p + 1..];
      FaultFreeFlushEnds(l1, db1, origin, queued);
    }
  }

  /** Without faults one drain of a synchronous ledger stores everything queued. */
  lemma FaultFreeDrainStoresEverything(s: System, origin: Db)
    requires Inv(s, origin) && !s.ledger.deferred && s.db.faults == []
    ensures
      var s' := Apply(s, Drain, origin);
      s'.ledger.pending == [] && s'.db.rows == origin.rows + s.queued
  {
    FaultFreeFlushEnds(s.ledger, s.db, origin, s.queued);
    FlushLoopFrame(s.ledger, s.db);
    FlushLoopDelivers(s.ledger, s.db, origin, s.queued);
    assert s.queued[..|s.queued|] == s.queued;
  }
}
