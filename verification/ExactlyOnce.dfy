/** Exactly-once delivery: the stored rows of a session are always a prefix of the events it queued. */
module ExactlyOnce {
  import opened Options
  import opened Accounting
  import opened ImportStateStore
  import opened ImportLedgerSpec
  import opened Reconciliation
  import opened DurableHistory

  /** IDs carry the session and strictly rising numbers, though overflow leaves holes in them. */
  ghost predicate Numbered(queued: seq<Event>, session: Session, bound: nat) {
    && (forall i :: 0 <= i < |queued| ==>
          queued[i].id.session == session && queued[i].id.sequence <= bound && ValidEvent(queued[i]))
    && (forall i, j :: 0 <= i < j < |queued| ==> queued[i].id.sequence < queued[j].id.sequence)
  }

  /** The tables are those the session found after one clean insert of each of its first kept events. */
  ghost predicate Stored(db: Db, origin: Db, queued: seq<Event>, kept: int) {
    && 0 <= kept <= |queued|
    && db.rows == origin.rows + queued[..kept]
    && SameTables(db, InsertAll(origin, queued[..kept]))
  }

  function Kept(db: Db, origin: Db): int {
    |db.rows| - |origin.rows|
  }

  function Popped(l: Ledger, queued: seq<Event>): int {
    |queued| - |l.pending|
  }

  /** The queue is what follows the popped events, and nothing is popped before it is stored. */
  ghost predicate Delivering(l: Ledger, db: Db, origin: Db, queued: seq<Event>) {
    && Opens(origin, l.session)
    && Numbered(queued, l.session, l.sequence)
    && Stored(db, origin, queued, Kept(db, origin))
    && 0 <= Popped(l, queued) <= Kept(db, origin)
    && l.pending == queued[Popped(l, queued)..]
  }

  ghost predicate SliceAt(payloads: seq<Event>, queued: seq<Event>, kept: int, a: int) {
    0 <= a <= kept && a + |payloads| <= |queued| && payloads == queued[a..a + |payloads|]
  }

  /** A run of consecutive queued events none of which starts beyond the stored ones. */
  ghost predicate Slice(payloads: seq<Event>, queued: seq<Event>, kept: int) {
    exists a :: SliceAt(payloads, queued, kept, a)
  }

  ghost predicate Names(queued: seq<Event>, kept: int, id: EventId) {
    exists i :: 0 <= i < kept && i < |queued| && queued[i].id == id
  }

  /** Every acknowledged ID names one of the first kept events. */
  ghost predicate Acknowledges(acknowledged: seq<EventId>, queued: seq<Event>, kept: int) {
    forall j :: 0 <= j < |acknowledged| ==> Names(queued, kept, acknowledged[j])
  }

  ghost predicate Inv(s: System, origin: Db) {
    && Delivering(s.ledger, s.db, origin, s.queued)
    && (forall j :: 0 <= j < |s.jobs| ==> Slice(s.jobs[j].payloads, s.queued, Kept(s.db, origin)))
    && (forall j :: 0 <= j < |s.replies| ==>
          Acknowledges(s.replies[j].reply.acknowledged, s.queued, Kept(s.db, origin)))
  }

  // ---------------------------------------------------------------- one call to the store

  lemma StoredIds(db: Db, origin: Db, queued: seq<Event>, session: Session, bound: nat, kept: int, k: int)
    requires Opens(origin, session) && Numbered(queued, session, bound) && Stored(db, origin, queued, kept)
    requires 0 <= k < |queued|
    ensures HasRow(db.rows, queued[k].id) <==> k < kept
    ensures k < kept ==> queued[k] in db.rows
  {
    if k < kept {
      assert db.rows[|origin.rows| + k] == queued[k];
    }
    if HasRow(db.rows, queued[k].id) {
      var i :| 0 <= i < |db.rows| && db.rows[i].id == queued[k].id;
      if i >= |origin.rows| {
        assert db.rows[i] == queued[i - |origin.rows|];
      }
    }
  }

  /** What recording a queued event does when all before it are stored. */
  ghost predicate Recorded(db: Db, origin: Db, queued: seq<Event>, k: int, db': Db, outcome: Outcome) {
    && Stored(db', origin, queued, Kept(db', origin))
    && Kept(db, origin) <= Kept(db', origin)
    && (Kept(db', origin) == Kept(db, origin) ==> SameTables(db', db))
    && (outcome == Done ==> k < Kept(db', origin))
    && outcome != Raised(EventIdReused) && outcome != Raised(InvalidEvent)
  }

  lemma RecordNext(db: Db, origin: Db, queued: seq<Event>, session: Session, bound: nat, k: int)
    requires Opens(origin, session) && Numbered(queued, session, bound)
    requires Stored(db, origin, queued, Kept(db, origin))
    requires 0 <= k <= Kept(db, origin) && k < |queued|
    ensures Recorded(db, origin, queued, k, Record(db, queued[k]).0, Record(db, queued[k]).1)
  {
    hide Opens;
    var kept := Kept(db, origin);
    StoredIds(db, origin, queued, session, bound, kept, k);
    if !HasRow(db.rows, queued[k].id) {
      assert queued[..kept + 1] == queued[..kept] + [queued[k]];
      InsertOneMore(origin, queued[..kept], queued[k]);
      assert Inserted(db, queued[k]).rows == origin.rows + queued[..kept + 1];
    }
  }

  lemma {:induction false} BatchNext(db: Db, origin: Db, queued: seq<Event>, session: Session, bound: nat,
                                     payloads: seq<Event>, a: int)
    requires Opens(origin, session) && Numbered(queued, session, bound)
    requires Stored(db, origin, queued, Kept(db, origin))
    requires SliceAt(payloads, queued, Kept(db, origin), a)
    ensures
      var (db', acknowledged, complete) := RecordBatch(db, payloads);
      && Stored(db', origin, queued, Kept(db', origin))
      && Kept(db, origin) <= Kept(db', origin)
      && (Kept(db', origin) == Kept(db, origin) ==> SameTables(db', db))
      && Acknowledges(acknowledged, queued, Kept(db', origin))
      && (complete ==> a + |payloads| <= Kept(db', origin))
    decreases |payloads|
  {
    hide Opens, Numbered, Stored, Record;
    if payloads != [] {
      assert payloads[0] == queued[a];
      RecordNext(db, origin, queued, session, bound, a);
      var (db1, outcome) := Record(db, payloads[0]);
      if outcome == Done {
        assert payloads[1..] == queued[a + 1..a + 1 + |payloads[1..]|];
        BatchNext(db1, origin, queued, session, bound, payloads[1..], a + 1);
        var (db2, acknowledged, complete) := RecordBatch(db1, payloads[1..]);
        assert queued[a].id == payloads[0].id;
        assert forall j :: 0 < j < |acknowledged| + 1 ==> ([payloads[0].id] + acknowledged)[j] == acknowledged[j - 1];
      }
    }
  }

  // ---------------------------------------------------------------- the ledger's own operations

  /** An operation that queued events after `queued` and left the delivery intact. */
  ghost predicate Moved(db: Db, queued: seq<Event>, l': Ledger, db': Db, queued': seq<Event>, origin: Db) {
    && Delivering(l', db', origin, queued')
    && queued <= queued'
    && Kept(db, origin) <= Kept(db', origin)
    && (Kept(db', origin) == Kept(db, origin) ==> SameTables(db', db))
  }

  lemma {:induction false} FlushLoopDelivers(l: Ledger, db: Db, origin: Db, queued: seq<Event>)
    requires Delivering(l, db, origin, queued)
    ensures
      var (l', db', outcome) := FlushLoop(l, db);
      && Moved(db, queued, l', db', queued, origin)
      && outcome != Raised(EventIdReused) && outcome != Raised(InvalidEvent)
    decreases |l.pending|
  {
    if l.pending != [] {
      var p := Popped(l, queued);
      assert l.pending[0] == queued[p];
      RecordNext(db, origin, queued, l.session, l.sequence, p);
      var (db1, outcome) := Record(db, queued[p]);
      if outcome == Done {
        var l1 := l.(pending := l.pending[1..]);
        assert l1.pending == queued[p + 1..];
        FlushLoopDelivers(l1, db1, origin, queued);
      }
    }
  }

  lemma FlushDelivers(l: Ledger, db: Db, origin: Db, queued: seq<Event>)
    requires Delivering(l, db, origin, queued)
    ensures Moved(db, queued, Flush(l, db).0, Flush(l, db).1, queued, origin)
  {
    if !l.deferred {
      FlushLoopDelivers(l, db, origin, queued);
    }
  }

  lemma MakeRoomDelivers(l: Ledger, db: Db, day: Day, origin: Db, queued: seq<Event>)
    requires Delivering(l, db, origin, queued)
    ensures Moved(db, queued, MakeRoom(l, db, day).0, MakeRoom(l, db, day).1, queued, origin)
  {
    hide Flush, Mark;
    FlushDelivers(l, db, origin, queued);
    MarkFrame(Flush(l, db).0, day, PendingIntervalOverflow);
  }

  lemma EnqueueDelivers(l: Ledger, db: Db, e: Event, origin: Db, queued: seq<Event>)
    requires Delivering(l, db, origin, queued)
    requires Numbered(queued + [e], l.session, l.sequence)
    ensures Delivering(Enqueue(l, e), db, origin, queued + [e])
  {
    var kept := Kept(db, origin);
    assert (queued + [e])[..kept] == queued[..kept];
    assert (queued + [e])[Popped(l, queued)..] == l.pending + [e];
  }

  lemma AdmitDelivers(l: Ledger, db: Db, e: Event, origin: Db, queued: seq<Event>)
    requires Delivering(l, db, origin, queued)
    requires Numbered(queued + [e], l.session, l.sequence)
    ensures
      var (l', db', _) := Flush(Enqueue(l, e), db);
      Moved(db, queued, l', db', queued + [e], origin)
  {
    EnqueueDelivers(l, db, e, origin, queued);
    FlushDelivers(Enqueue(l, e), db, origin, queued + [e]);
  }

  lemma MovedTransitive(db0: Db, queued0: seq<Event>, l1: Ledger, db1: Db, queued1: seq<Event>,
                        l2: Ledger, db2: Db, queued2: seq<Event>, origin: Db)
    requires Moved(db0, queued0, l1, db1, queued1, origin) && Moved(db1, queued1, l2, db2, queued2, origin)
    ensures Moved(db0, queued0, l2, db2, queued2, origin)
  {
  }

  lemma NumberedExtends(queued: seq<Event>, e: Event, session: Session, bound: nat)
    requires Numbered(queued, session, bound)
    requires e.id == EventId(session, bound + 1) && ValidEvent(e)
    ensures Numbered(queued + [e], session, bound + 1)
  {
  }

  lemma PersistDelivers(l: Ledger, db: Db, i: Interval, origin: Db, queued: seq<Event>)
    requires Delivering(l, db, origin, queued) && i.kwh >= 0.0
    ensures Moved(db, queued, Persist(l, db, i).0, Persist(l, db, i).1, queued + PersistedEvents(l, db, i), origin)
  {
    var numbered := l.(sequence := l.sequence + 1);
    assert Delivering(numbered, db, origin, queued);
    MakeRoomDelivers(numbered, db, i.current.now.day, origin, queued);
    MakeRoomFrame(numbered, db, i.current.now.day);
    var (l1, db1, outcome) := MakeRoom(numbered, db, i.current.now.day);
    var e := Freeze(numbered, i);
    if outcome.Raised? {
      assert queued + PersistedEvents(l, db, i) == queued;
    } else {
      assert PersistedEvents(l, db, i) == [e];
      NumberedExtends(queued, e, l.session, l.sequence);
      AdmitDelivers(l1, db1, e, origin, queued);
      var (l2, db2, _) := Flush(Enqueue(l1, e), db1);
      MovedTransitive(db, queued, l1, db1, queued, l2, db2, queued + [e], origin);
    }
  }

  lemma ProductIsNonnegative(x: real, y: real)
    requires x >= 0.0 && y >= 0.0
    ensures x * y / 3600.0 >= 0.0
  {
    assert x * y >= 0.0;
  }

  lemma MeasuredEnergyIsNonnegative(previous: Option<Sample>, current: Sample, power: Option<real>, measured: bool)
    ensures Measure(previous, current, power, measured).kwh >= 0.0
  {
    if power.Some? {
      var p, t := Max0(power.value), Clamp(Elapsed(previous, current.now), 0.0, MAX_GAP_SECONDS);
      ProductIsNonnegative(p, t);
    }
  }

  /** Delivery is about the queue and its numbering, and the tables, alone. */
  lemma DeliveringIsFramed(l: Ledger, l': Ledger, db: Db, db': Db, origin: Db, queued: seq<Event>)
    requires Delivering(l, db, origin, queued)
    requires l'.pending == l.pending && l'.sequence == l.sequence && l'.session == l.session
    requires db' == db.(faults := db'.faults)
    ensures Delivering(l', db', origin, queued) && Moved(db, queued, l', db', queued, origin)
  {
  }

  lemma TakeReadingDelivers(l: Ledger, db: Db, r: Reading, origin: Db, queued: seq<Event>)
    requires Delivering(l, db, origin, queued)
    ensures
      var (m, d, _) := TakeReading(l, db, r);
      Moved(db, queued, m, d, queued + ReadingEvents(l, db, r), origin)
  {
    hide Observed, Persist, Flush, Delivering, Moved, Measure;
    var current := Current(r);
    ObservedFrame(l, r);
    var after := Advance(Observed(l, r), current);
    DeliveringIsFramed(l, after, db, db, origin, queued);
    DeliveringIsFramed(after, after.(retained := true), db, db, origin, queued);
    MeasuredEnergyIsNonnegative(l.last, current, r.power, MeasuredActive(l, current));
    if NeedsEvent(l, current, after) {
      PersistDelivers(after, db, ReadingInterval(l, r, after.last.value), origin, queued);
    } else {
      assert queued + [] == queued;
      FlushDelivers(after.(retained := true), db, origin, queued);
    }
  }

  lemma MovedDelivers(db: Db, queued: seq<Event>, l': Ledger, db': Db, queued': seq<Event>, origin: Db)
    requires Moved(db, queued, l', db', queued', origin)
    ensures Delivering(l', db', origin, queued')
  {
  }

  lemma RecordDelivers(l: Ledger, db: Db, r: Reading, origin: Db, queued: seq<Event>)
    requires Delivering(l, db, origin, queued)
    ensures
      var (l', db', _) := RecordReading(l, db, r);
      Moved(db, queued, l', db', queued + RecordedEvents(l, db, r), origin)
  {
    hide TakeReading, Invalidate, LoadCheckpoint, Delivering, Moved;
    var begun := BeginCapture(l);
    DeliveringIsFramed(l, begun, db, db, origin, queued);
    if !r.now.aware {
      InvalidateFrame(begun, r.now, IntervalSnapshotUnretained, false);
      DeliveringIsFramed(l, RecordReading(l, db, r).0, db, db, origin, queued);
      assert queued + [] == queued;
    } else {
      LoadCheckpointFrame(begun, db, r.now.day);
      var (loaded, read) := LoadCheckpoint(begun, db, r.now.day);
      DeliveringIsFramed(begun, loaded, db, read, origin, queued);
      TakeReadingDelivers(loaded, read, r, origin, queued);
      var (taken, after, _) := TakeReading(loaded, read, r);
      var more := queued + ReadingEvents(loaded, read, r);
      MovedDelivers(read, queued, taken, after, more, origin);
      MovedTransitive(db, queued, loaded, read, queued, taken, after, more, origin);
      InvalidateFrame(taken, r.now, IntervalSnapshotUnretained, false);
      DeliveringIsFramed(taken, RecordReading(l, db, r).0, after, after, origin, more);
      MovedTransitive(db, queued, taken, after, more, RecordReading(l, db, r).0, after, more, origin);
    }
  }

  lemma OwnDelivers(l: Ledger, db: Db, now: Instant, active: bool, origin: Db, queued: seq<Event>)
    requires Delivering(l, db, origin, queued) && l.last.Some?
    ensures
      var (l', db', _) := Own(l, db, now, active);
      Moved(db, queued, l', db', queued + OwnEvents(l, db, now, active), origin)
  {
    var owned := ChangeOwner(l, active);
    PersistDelivers(owned, db, PermissionInterval(owned.last.value, now), origin, queued);
  }

  lemma ChangeDelivers(l: Ledger, db: Db, now: Instant, active: bool, origin: Db, queued: seq<Event>)
    requires Delivering(l, db, origin, queued)
    ensures
      var (l', db', _) := Change(l, db, now, active);
      Moved(db, queued, l', db', queued + ChangeEvents(l, db, now, active), origin)
  {
    assert queued + [] == queued;
    if l.last.None? {
      InvalidateFrame(l, now, MissingInitialBoundary, false);
    } else if OwnerUnchanged(l, active) {
      FlushDelivers(l.(retained := true), db, origin, queued);
    } else {
      OwnDelivers(l, db, now, active, origin, queued);
    }
  }

  lemma PermissionDelivers(
      l: Ledger, db: Db, now: Instant, source: Source, active: bool, origin: Db, queued: seq<Event>)
    requires Delivering(l, db, origin, queued)
    ensures
      var (l', db', _) := SetPermission(l, db, now, source, active);
      Moved(db, queued, l', db', queued + PermissionEvents(l, db, now, source, active), origin)
  {
    hide Change, Invalidate, CheckSource;
    var begun := BeginCapture(l);
    CheckSourceFrame(begun, source, now.day);
    ChangeDelivers(CheckSource(begun, source, now.day), db, now, active, origin, queued);
    InvalidateFrame(ApplyPermission(begun, db, now, source, active).0, now, PermissionSnapshotUnretained, false);
  }

  // ---------------------------------------------------------------- acknowledgements

  lemma NamedIsBelow(queued: seq<Event>, p: int, bound: int, id: EventId, session: Session, last: nat)
    requires Numbered(queued, session, last) && 0 <= p < |queued| && queued[p].id == id && Names(queued, bound, id)
    ensures p < bound
  {
    var i :| 0 <= i < bound && i < |queued| && queued[i].id == id;
    assert i == p;
  }

  lemma AcknowledgesFirst(acknowledged: seq<EventId>, queued: seq<Event>, bound: int)
    requires Acknowledges(acknowledged, queued, bound) && acknowledged != []
    ensures Names(queued, bound, acknowledged[0]) && Acknowledges(acknowledged[1..], queued, bound)
  {
    assert forall j :: 0 <= j < |acknowledged| - 1 ==> acknowledged[1..][j] == acknowledged[j + 1];
  }

  /** Acknowledgements of the first bound events cannot retire any event beyond them. */
  lemma {:induction false} RetireStopsAt(queued: seq<Event>, p: int, acknowledged: seq<EventId>, bound: int,
                                         session: Session, last: nat)
    requires Numbered(queued, session, last)
    requires 0 <= p <= bound <= |queued| && Acknowledges(acknowledged, queued, bound)
    ensures
      var rest := Retire(queued[p..], acknowledged);
      |rest| <= |queued| - p && |queued| - |rest| <= bound && rest == queued[|queued| - |rest|..]
    decreases |acknowledged|
  {
    hide Numbered, Acknowledges, Names;
    if acknowledged != [] && p < |queued| && queued[p].id == acknowledged[0] {
      AcknowledgesFirst(acknowledged, queued, bound);
      NamedIsBelow(queued, p, bound, acknowledged[0], session, last);
      assert queued[p..][1..] == queued[p + 1..];
      RetireStopsAt(queued, p + 1, acknowledged[1..], bound, session, last);
    }
  }

  lemma RetireDelivers(l: Ledger, db: Db, acknowledged: seq<EventId>, bound: int, origin: Db, queued: seq<Event>)
    requires Delivering(l, db, origin, queued)
    requires Popped(l, queued) <= bound <= Kept(db, origin) && Acknowledges(acknowledged, queued, bound)
    ensures
      var l' := l.(pending := Retire(l.pending, acknowledged));
      Delivering(l', db, origin, queued) && Popped(l, queued) <= Popped(l', queued) <= bound
  {
    RetireStopsAt(queued, Popped(l, queued), acknowledged, bound, l.session, l.sequence);
  }

  lemma AcceptDelivers(l: Ledger, db: Db, key: Key, reply: Reply, origin: Db, queued: seq<Event>)
    requires Delivering(l, db, origin, queued)
    requires Acknowledges(reply.acknowledged, queued, Kept(db, origin))
    ensures Delivering(Accept(l, key, reply), db, origin, queued)
  {
    RetireDelivers(l, db, reply.acknowledged, Kept(db, origin), origin, queued);
    LearnedFrame(Retired(l, reply), reply);
  }

  // ---------------------------------------------------------------- jobs and whole runs

  lemma SliceGrows(payloads: seq<Event>, queued: seq<Event>, kept: int, queued': seq<Event>, kept': int)
    requires Slice(payloads, queued, kept) && queued <= queued' && kept <= kept'
    ensures Slice(payloads, queued', kept')
  {
    var a :| SliceAt(payloads, queued, kept, a);
    assert queued'[a..a + |payloads|] == queued[a..a + |payloads|];
    assert SliceAt(payloads, queued', kept', a);
  }

  lemma AcknowledgesGrows(acknowledged: seq<EventId>, queued: seq<Event>, kept: int, queued': seq<Event>, kept': int)
    requires Acknowledges(acknowledged, queued, kept) && queued <= queued' && kept <= kept'
    ensures Acknowledges(acknowledged, queued', kept')
  {
    forall j | 0 <= j < |acknowledged|
      ensures Names(queued', kept', acknowledged[j])
    {
      var i :| 0 <= i < kept && i < |queued| && queued[i].id == acknowledged[j];
      assert queued'[i] == queued[i];
    }
  }

  lemma MovedKeepsWork(s: System, s': System, origin: Db)
    requires Inv(s, origin)
    requires Moved(s.db, s.queued, s'.ledger, s'.db, s'.queued, origin)
    requires s'.jobs == s.jobs && s'.replies == s.replies
    ensures Inv(s', origin)
  {
    forall j | 0 <= j < |s.jobs|
      ensures Slice(s.jobs[j].payloads, s'.queued, Kept(s'.db, origin))
    {
      SliceGrows(s.jobs[j].payloads, s.queued, Kept(s.db, origin), s'.queued, Kept(s'.db, origin));
    }
    forall j | 0 <= j < |s.replies|
      ensures Acknowledges(s.replies[j].reply.acknowledged, s'.queued, Kept(s'.db, origin))
    {
      AcknowledgesGrows(s.replies[j].reply.acknowledged, s.queued, Kept(s.db, origin), s'.queued, Kept(s'.db, origin));
    }
  }

  lemma SnapshotIsASlice(l: Ledger, db: Db, day: Day, source: Source, origin: Db, queued: seq<Event>)
    requires Delivering(l, db, origin, queued)
    ensures Slice(Snapshot(l, day, source).payloads, queued, Kept(db, origin))
  {
    assert SliceAt(Snapshot(l, day, source).payloads, queued, Kept(db, origin), Popped(l, queued));
  }

  lemma RunJobDelivers(l: Ledger, db: Db, job: Job, origin: Db, queued: seq<Event>)
    requires Delivering(l, db, origin, queued)
    requires Slice(job.payloads, queued, Kept(db, origin))
    ensures
      var (db', reply) := RunJob(db, job);
      && Moved(db, queued, l, db', queued, origin)
      && Acknowledges(reply.acknowledged, queued, Kept(db', origin))
  {
    hide RecordBatch, Numbered, Opens, InsertAll, Names, Summarize;
    var a :| SliceAt(job.payloads, queued, Kept(db, origin), a);
    var read := if job.loadCheckpoint then db.(faults := Consume(db.faults)) else db;
    BatchNext(read, origin, queued, l.session, l.sequence, job.payloads, a);
  }

  lemma FinishKeeps(s: System, origin: Db)
    requires Inv(s, origin)
    ensures Inv(Finish(s, origin), origin)
  {
    if s.jobs != [] {
      RunJobDelivers(s.ledger, s.db, s.jobs[0], origin, s.queued);
      var s' := Finish(s, origin);
      forall j | 0 <= j < |s'.jobs|
        ensures Slice(s'.jobs[j].payloads, s'.queued, Kept(s'.db, origin))
      {
        SliceGrows(s.jobs[j + 1].payloads, s.queued, Kept(s.db, origin), s'.queued, Kept(s'.db, origin));
      }
    }
  }

  lemma ReplyKeeps(s: System, i: nat, again: bool, origin: Db)
    requires Inv(s, origin)
    ensures Inv(Apply(s, Deliver(i, again), origin), origin)
  {
    if i < |s.replies| {
      AcceptDelivers(s.ledger, s.db, s.replies[i].job.key, s.replies[i].reply, origin, s.queued);
    }
  }

  lemma ApplyKeeps(s: System, op: Op, origin: Db)
    requires Inv(s, origin)
    ensures Inv(Apply(s, op, origin), origin)
  {
    hide RecordReading, SetPermission, Flush, Invalidate, Finish, Accept, ReadSummary, Delivering;
    var s' := Apply(s, op, origin);
    match op
    case Capture => DeliveringIsFramed(s.ledger, s'.ledger, s.db, s.db, origin, s.queued);
    case Read(r) =>
      RecordDelivers(s.ledger, s.db, r, origin, s.queued);
      MovedKeepsWork(s, s', origin);
    case Permit(now, source, active) =>
      PermissionDelivers(s.ledger, s.db, now, source, active, origin, s.queued);
      MovedKeepsWork(s, s', origin);
    case Dispute(now, reason, permissionUnknown) =>
      InvalidateFrame(s.ledger, now, reason, permissionUnknown);
      DeliveringIsFramed(s.ledger, s'.ledger, s.db, s.db, origin, s.queued);
    case Drain =>
      FlushDelivers(s.ledger, s.db, origin, s.queued);
      MovedKeepsWork(s, s', origin);
    case Ask(day, source) => SnapshotIsASlice(s.ledger, s.db, day, source, origin, s.queued);
    case Work => FinishKeeps(s, origin);
    case Abandon(i) =>
    case Deliver(i, again) => ReplyKeeps(s, i, again, origin);
    case Lose(i) =>
    case Report(day, source, observedAt) =>
      ReadSummaryFrame(s.ledger, s.db, day, source, observedAt);
      DeliveringIsFramed(s.ledger, s'.ledger, s.db, s'.db, origin, s.queued);
      MovedKeepsWork(s, s', origin);
  }

  lemma {:induction false} RunKeeps(s: System, ops: seq<Op>, origin: Db)
    requires Inv(s, origin)
    ensures Inv(Run(s, ops, origin), origin)
  {
    if ops != [] {
      RunKeeps(s, ops[..|ops| - 1], origin);
      ApplyKeeps(Run(s, ops[..|ops| - 1], origin), ops[|ops| - 1], origin);
    }
  }

  lemma StartKeeps(db: Db, session: Session, started: Instant, source: Source, limit: nat, deferred: bool)
    requires Opens(db, session)
    ensures Inv(Start(db, session, started, source, limit, deferred), db)
  {
  }

  /** The first kept events are stored after the rows found at the start; all but the first popped are queued. */
  ghost predicate DeliveredUpTo(s: System, origin: Db, kept: int, popped: int) {
    && 0 <= popped <= kept <= |s.queued|
    && s.db.rows == origin.rows + s.queued[..kept]
    && SameTables(s.db, InsertAll(origin, s.queued[..kept]))
    && s.ledger.pending == s.queued[popped..]
  }

  /** The store cannot answer this event with a refusal, only with an acknowledgement or a database failure. */
  predicate NeverRefused(db: Db, e: Event) {
    Record(db, e).1 != Raised(EventIdReused) && Record(db, e).1 != Raised(InvalidEvent)
  }

  ghost predicate DeliveredExactlyOnce(s: System, origin: Db) {
    && (exists kept, popped :: DeliveredUpTo(s, origin, kept, popped))
    && UniqueIds(s.db.rows)
    && (forall k :: 0 <= k < |s.queued| ==> NeverRefused(s.db, s.queued[k]))
  }

  lemma RowsStayUnique(db: Db, origin: Db, queued: seq<Event>, l: Ledger)
    requires Delivering(l, db, origin, queued)
    ensures UniqueIds(db.rows)
  {
    forall i, j | 0 <= i < j < |db.rows|
      ensures db.rows[i].id != db.rows[j].id
    {
    }
  }

  lemma InvDelivers(s: System, origin: Db)
    requires Inv(s, origin)
    ensures DeliveredExactlyOnce(s, origin)
  {
    assert DeliveredUpTo(s, origin, Kept(s.db, origin), Popped(s.ledger, s.queued));
    RowsStayUnique(s.db, origin, s.queued, s.ledger);
    forall k | 0 <= k < |s.queued|
      ensures NeverRefused(s.db, s.queued[k])
    {
      StoredIds(s.db, origin, s.queued, s.ledger.session, s.ledger.sequence, Kept(s.db, origin), k);
    }
  }

  /**
   * Whatever the interleaving of readings, permissions, snapshots, retries, faults, and late, lost or repeated
   * replies: the tables hold a prefix of the queued events after the rows found at the start, each once and
   * unaltered, and are exactly what inserting that prefix once would leave; what left the queue is stored; what is
   * in the queue is exactly the rest; and no queued event can be refused as invalid or as a reused ID.
   */
  lemma {:induction false} ExactlyOnceDelivery(
      db: Db, session: Session, started: Instant, source: Source, limit: nat, deferred: bool, ops: seq<Op>)
    requires Opens(db, session)
    ensures DeliveredExactlyOnce(Run(Start(db, session, started, source, limit, deferred), ops, db), db)
  {
    var start := Start(db, session, started, source, limit, deferred);
    StartKeeps(db, session, started, source, limit, deferred);
    RunKeeps(start, ops, db);
    InvDelivers(Run(start, ops, db), db);
  }
}
