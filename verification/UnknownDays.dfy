/** Doubt is durable: unknown days only grow, and reach the store with the queue that carries them. */
module UnknownDays {
  import opened Options
  import opened Accounting
  import opened ImportStateStore
  import opened ImportLedgerSpec
  import opened Reconciliation
  import opened DurableHistory
  import ExactlyOnce

  /** When no revision is outstanding, the newest queued event carries every unknown day. */
  ghost predicate Carried(l: Ledger, queued: seq<Event>) {
    && l.queuedRevision <= l.unknownRevision
    && (l.queuedRevision == l.unknownRevision ==>
          queued != [] && queued[|queued| - 1].unknownDays == l.unknownDays)
  }

  ghost predicate StoredAsUnknown(l: Ledger, db: Db) {
    forall d :: d in l.unknownDays ==> d in db.coverage && db.coverage[d].unknown
  }

  /** The operation left doubt carried and dropped none of it. */
  ghost predicate Kept(l: Ledger, l': Ledger, queued': seq<Event>) {
    Carried(l', queued') && Grows(l, l')
  }

  lemma KeptTransitive(a: Ledger, b: Ledger, queued: seq<Event>, c: Ledger, queued': seq<Event>)
    requires Kept(a, b, queued) && Kept(b, c, queued')
    ensures Kept(a, c, queued')
  {
  }

  lemma InvalidateCarries(l: Ledger, now: Instant, reason: Reason, permissionUnknown: bool, queued: seq<Event>)
    requires Carried(l, queued)
    ensures Kept(l, Invalidate(l, now, reason, permissionUnknown), queued)
  {
    InvalidateFrame(l, now, reason, permissionUnknown);
  }

  lemma PersistCarries(l: Ledger, db: Db, i: Interval, queued: seq<Event>)
    requires Carried(l, queued)
    ensures Kept(l, Persist(l, db, i).0, queued + PersistedEvents(l, db, i))
  {
    hide Persist;
    PersistFrame(l, db, i);
    assert queued + [] == queued;
  }

  lemma TakeReadingCarries(l: Ledger, db: Db, r: Reading, queued: seq<Event>)
    requires Carried(l, queued)
    ensures Kept(l, TakeReading(l, db, r).0, queued + ReadingEvents(l, db, r))
  {
    hide Persist, Flush, Observed;
    var current := Current(r);
    ObservedFrame(l, r);
    var after := Advance(Observed(l, r), current);
    assert Kept(l, after, queued);
    assert queued + [] == queued;
    if NeedsEvent(l, current, after) {
      PersistCarries(after, db, ReadingInterval(l, r, after.last.value), queued);
    } else {
      FlushFrame(after.(retained := true), db);
    }
  }

  lemma RecordLoadedCarries(l: Ledger, db: Db, r: Reading, queued: seq<Event>)
    requires Carried(l, queued)
    ensures
      var (l', _, outcome) := TakeReading(l, db, r);
      var left :=
        if outcome.Raised? && !l'.retained then Invalidate(l', r.now, IntervalSnapshotUnretained, false) else l';
      Kept(l, left, queued + ReadingEvents(l, db, r))
  {
    var queued' := queued + ReadingEvents(l, db, r);
    TakeReadingCarries(l, db, r, queued);
    var l' := TakeReading(l, db, r).0;
    InvalidateCarries(l', r.now, IntervalSnapshotUnretained, false, queued');
    KeptTransitive(l, l', queued', Invalidate(l', r.now, IntervalSnapshotUnretained, false), queued');
  }

  lemma RecordCarries(l: Ledger, db: Db, r: Reading, queued: seq<Event>)
    requires Carried(l, queued)
    ensures Kept(l, RecordReading(l, db, r).0, queued + RecordedEvents(l, db, r))
  {
    hide TakeReading, Invalidate, LoadCheckpoint;
    var begun := BeginCapture(l);
    if !r.now.aware {
      assert queued + [] == queued;
      InvalidateCarries(begun, r.now, IntervalSnapshotUnretained, false, queued);
    } else {
      LoadCheckpointFrame(begun, db, r.now.day);
      var (loaded, read) := LoadCheckpoint(begun, db, r.now.day);
      assert Kept(l, loaded, queued);
      RecordLoadedCarries(loaded, read, r, queued);
      KeptTransitive(l, loaded, queued, RecordReading(l, db, r).0, queued + RecordedEvents(l, db, r));
    }
  }

  lemma OwnCarries(l: Ledger, db: Db, now: Instant, active: bool, queued: seq<Event>)
    requires Carried(l, queued) && l.last.Some?
    ensures Kept(l, Own(l, db, now, active).0, queued + OwnEvents(l, db, now, active))
  {
    var owned := ChangeOwner(l, active);
    PersistCarries(owned, db, PermissionInterval(owned.last.value, now), queued);
  }

  lemma ChangeCarries(l: Ledger, db: Db, now: Instant, active: bool, queued: seq<Event>)
    requires Carried(l, queued)
    ensures Kept(l, Change(l, db, now, active).0, queued + ChangeEvents(l, db, now, active))
  {
    assert queued + [] == queued;
    if l.last.None? {
      InvalidateCarries(l, now, MissingInitialBoundary, false, queued);
    } else if OwnerUnchanged(l, active) {
      FlushFrame(l.(retained := true), db);
    } else {
      OwnCarries(l, db, now, active, queued);
    }
  }

  lemma ApplyPermissionCarries(l: Ledger, db: Db, now: Instant, source: Source, active: bool, queued: seq<Event>)
    requires Carried(l, queued)
    ensures Kept(l, ApplyPermission(l, db, now, source, active).0, queued + AppliedEvents(l, db, now, source, active))
  {
    CheckSourceFrame(l, source, now.day);
    var checked := CheckSource(l, source, now.day);
    assert Kept(l, checked, queued);
    ChangeCarries(checked, db, now, active, queued);
    KeptTransitive(l, checked, queued, ApplyPermission(l, db, now, source, active).0,
                   queued + AppliedEvents(l, db, now, source, active));
  }

  lemma PermissionCarries(l: Ledger, db: Db, now: Instant, source: Source, active: bool, queued: seq<Event>)
    requires Carried(l, queued)
    ensures Kept(l, SetPermission(l, db, now, source, active).0, queued + PermissionEvents(l, db, now, source, active))
  {
    var begun := BeginCapture(l);
    ApplyPermissionCarries(begun, db, now, source, active, queued);
    InvalidateFrame(ApplyPermission(begun, db, now, source, active).0, now, PermissionSnapshotUnretained, false);
  }

  lemma ApplyCarries(s: System, op: Op, origin: Db)
    requires Carried(s.ledger, s.queued)
    ensures Kept(s.ledger, Apply(s, op, origin).ledger, Apply(s, op, origin).queued)
    ensures s.queued <= Apply(s, op, origin).queued
  {
    hide RecordReading, SetPermission, Flush, Invalidate, ReadSummary;
    match op
    case Capture =>
    case Read(r) => RecordCarries(s.ledger, s.db, r, s.queued);
    case Permit(now, source, active) => PermissionCarries(s.ledger, s.db, now, source, active, s.queued);
    case Dispute(now, reason, permissionUnknown) => InvalidateFrame(s.ledger, now, reason, permissionUnknown);
    case Drain => FlushFrame(s.ledger, s.db);
    case Ask(day, source) =>
    case Work =>
    case Abandon(i) =>
    case Deliver(i, again) =>
      if i < |s.replies| {
        LearnedFrame(Retired(s.ledger, s.replies[i].reply), s.replies[i].reply);
      }
    case Lose(i) =>
    case Report(day, source, observedAt) => ReadSummaryFrame(s.ledger, s.db, day, source, observedAt);
  }

  lemma {:induction false} RunCarries(s: System, ops: seq<Op>, origin: Db)
    requires Carried(s.ledger, s.queued)
    ensures Kept(s.ledger, Run(s, ops, origin).ledger, Run(s, ops, origin).queued)
  {
    if ops != [] {
      var shorter := ops[..|ops| - 1];
      RunCarries(s, shorter, origin);
      ApplyCarries(Run(s, shorter, origin), ops[|ops| - 1], origin);
    }
  }

  lemma CarriedIsStored(s: System, origin: Db)
    requires ExactlyOnce.Inv(s, origin) && Carried(s.ledger, s.queued)
    requires s.ledger.pending == [] && s.ledger.queuedRevision == s.ledger.unknownRevision
    ensures StoredAsUnknown(s.ledger, s.db)
  {
    InsertsCover(origin, s.queued[..ExactlyOnce.Kept(s.db, origin)]);
  }

  /**
   * Over any run: unknown days only grow and keep their first reason, and whenever nothing is queued and no
   * revision is outstanding, every one of them is stored as unknown.
   */
  lemma {:induction false} UnknownDaysBecomeDurable(
      db: Db, session: Session, started: Instant, source: Source, limit: nat, deferred: bool, ops: seq<Op>)
    requires Opens(db, session)
    ensures
      var start := Start(db, session, started, source, limit, deferred);
      && Grows(start.ledger, Run(start, ops, db).ledger)
      && (Run(start, ops, db).ledger.pending == []
          && Run(start, ops, db).ledger.queuedRevision == Run(start, ops, db).ledger.unknownRevision ==>
            StoredAsUnknown(Run(start, ops, db).ledger, Run(start, ops, db).db))
  {
    var start := Start(db, session, started, source, limit, deferred);
    RunCarries(start, ops, db);
    ExactlyOnce.StartKeeps(db, session, started, source, limit, deferred);
    ExactlyOnce.RunKeeps(start, ops, db);
    var s := Run(start, ops, db);
    if s.ledger.pending == [] && s.ledger.queuedRevision == s.ledger.unknownRevision {
      CarriedIsStored(s, db);
    }
  }

  lemma DonePersistIsQueued(l: Ledger, db: Db, i: Interval)
    requires !l.deferred && Persist(l, db, i).2 == Done
    ensures
      var l' := Persist(l, db, i).0;
      l'.pending == [] && l'.queuedRevision == l'.unknownRevision
  {
    var numbered := l.(sequence := l.sequence + 1);
    MakeRoomFrame(numbered, db, i.current.now.day);
    var (l1, db1, _) := MakeRoom(numbered, db, i.current.now.day);
    FlushFrame(Enqueue(l1, Freeze(numbered, i)), db1);
  }

  lemma DoneReadingIsQueued(l: Ledger, db: Db, r: Reading)
    requires !l.deferred && TakeReading(l, db, r).2 == Done
    ensures
      var l' := TakeReading(l, db, r).0;
      l'.pending == [] && l'.queuedRevision == l'.unknownRevision
  {
    var current := Current(r);
    ObservedFrame(l, r);
    var after := Advance(Observed(l, r), current);
    if NeedsEvent(l, current, after) {
      DonePersistIsQueued(after, db, ReadingInterval(l, r, after.last.value));
    } else {
      FlushFrame(after.(retained := true), db);
    }
  }

  /** A synchronous reading that returns normally leaves no doubt in memory alone. */
  lemma RecordedDoubtIsDurable(s: System, r: Reading, origin: Db)
    requires ExactlyOnce.Inv(s, origin) && Carried(s.ledger, s.queued)
    requires !s.ledger.deferred && RecordReading(s.ledger, s.db, r).2 == Done
    ensures
      var s' := Apply(s, Read(r), origin);
      s'.ledger.pending == [] && StoredAsUnknown(s'.ledger, s'.db)
  {
    var s' := Apply(s, Read(r), origin);
    ExactlyOnce.ApplyKeeps(s, Read(r), origin);
    RecordCarries(s.ledger, s.db, r, s.queued);
    var begun := BeginCapture(s.ledger);
    LoadCheckpointFrame(begun, s.db, r.now.day);
    var (loaded, read) := LoadCheckpoint(begun, s.db, r.now.day);
    DoneReadingIsQueued(loaded, read, r);
    CarriedIsStored(s', origin);
  }
}
