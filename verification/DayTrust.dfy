/** What a day that is still trusted says about every reading the session took. */
module DayTrust {
  import opened Options
  import opened Accounting
  import opened ImportStateStore
  import opened ImportLedgerSpec
  import opened Reconciliation
  import ExactlyOnce

  // ---------------------------------------------------------------- readings that leave no doubt

  /** The day was entered from an inactive sample of the same source, with permission known on both sides. */
  predicate EntryProven(o: Observation) {
    !SameDay(o.previous, o.current) && ProvenEntry(o.previous, o.current)
  }

  /** The day was continued: same source, a gap of 0 to 300 s, usable meters and known permission. */
  predicate StepProven(o: Observation) {
    && SameDay(o.previous, o.current)
    && InGap(Elapsed(o.previous, o.current.now))
    && MetersUsable(o.previous.value, o.current)
    && o.previous.value.permissionKnown && o.current.permissionKnown
  }

  /** A reading that proves nothing leaves both of the days it touches unknown. */
  ghost predicate Sound(o: Observation, unknown: map<Day, Reason>) {
    EntryProven(o) || StepProven(o)
    || (o.current.now.day in unknown && (o.previous.Some? ==> o.previous.value.now.day in unknown))
  }

  predicate SameMeasurement(a: Sample, b: Sample) {
    a.now == b.now && a.source == b.source && a.daily == b.daily
  }

  /** The readings form one chain, and each names its real predecessor. */
  ghost predicate Chained(log: seq<Observation>) {
    && (log != [] ==> log[0].previous.None?)
    && (forall i :: 0 < i < |log| ==>
          log[i].previous.Some? && SameMeasurement(log[i].previous.value, log[i - 1].current))
    && (forall i :: 0 <= i < |log| ==>
          (log[i].current.active || (log[i].previous.Some? && log[i].previous.value.active) ==> log[i].measured))
  }

  ghost predicate Trusting(l: Ledger, log: seq<Observation>) {
    && Chained(log)
    && (forall i :: 0 <= i < |log| ==> Sound(log[i], l.unknownDays))
    && (l.last.Some? <==> log != [])
    && (l.last.Some? ==>
          && SameMeasurement(l.last.value, log[|log| - 1].current)
          && (!l.last.value.permissionKnown ==> l.last.value.now.day in l.unknownDays))
  }

  /** Some reading of the log entered the day from proven evidence. */
  ghost predicate Entered(log: seq<Observation>, d: Day) {
    exists i :: 0 <= i < |log| && log[i].current.now.day == d && EntryProven(log[i])
  }

  /** Every event that opens a day was queued by a reading that entered it. */
  ghost predicate OpenedByEntry(queued: seq<Event>, log: seq<Observation>) {
    forall k, d :: 0 <= k < |queued| && d in queued[k].completeDays ==> Entered(log, d)
  }

  // ---------------------------------------------------------------- energy

  function Kwh(o: Observation): real {
    Measure(o.previous, o.current, o.power, o.measured).kwh
  }

  function LogKwh(log: seq<Observation>, d: Day): real {
    if log == [] then 0.0
    else
      var last := log[|log| - 1];
      LogKwh(log[..|log| - 1], d) + if last.current.now.day == d then Kwh(last) else 0.0
  }

  function QueuedKwh(queued: seq<Event>, d: Day): real {
    Total(EventLines(queued, d))
  }

  /** Every number taken was given to a queued event: no overflow has burned one. */
  predicate NoneBurned(l: Ledger, queued: seq<Event>) {
    |queued| == l.sequence
  }

  /** For a trusted day, and without overflow for every day, the queued events carry exactly the measured energy. */
  ghost predicate Accounted(l: Ledger, queued: seq<Event>, log: seq<Observation>) {
    && |queued| <= l.sequence
    && forall d :: d !in l.unknownDays || NoneBurned(l, queued) ==> QueuedKwh(queued, d) == LogKwh(log, d)
  }

  lemma QueuedKwhExtends(queued: seq<Event>, e: Event, d: Day)
    requires e.kwh >= 0.0
    ensures QueuedKwh(queued + [e], d) == QueuedKwh(queued, d) + if e.day == d then e.kwh else 0.0
  {
    assert (queued + [e])[..|queued|] == queued;
    var lines, line := EventLines(queued, d), Line(e.kwh, e.price, e.trusted);
    assert (lines + [line])[..|lines|] == lines;
    assert lines + [] == lines;
  }

  lemma LogKwhExtends(log: seq<Observation>, o: Observation, d: Day)
    ensures LogKwh(log + [o], d) == LogKwh(log, d) + if o.current.now.day == d then Kwh(o) else 0.0
  {
    assert (log + [o])[..|log|] == log;
  }

  // ---------------------------------------------------------------- one reading

  lemma BoundaryIsSound(l: Ledger, r: Reading)
    requires l.last.Some? && !l.last.value.permissionKnown ==> l.last.value.now.day in l.unknownDays
    requires !r.permissionKnown ==> r.now.day in l.unknownDays
    ensures Sound(Observe(l, r), MarkBoundary(l, Current(r)).unknownDays)
  {
    var current := Current(r);
    var day := current.now.day;
    MarkFrame(l, day, MissingInitialBoundary);
    MarkBoundaryFrame(l, current);
    if l.last.Some? {
      var before := l.last.value.now.day;
      var gap := !InGap(Elapsed(l.last, current.now));
      var l1 := MarkPair(l, gap, day, before, ObservationGapOrClockChange);
      MarkPairFrame(l, gap, day, before, ObservationGapOrClockChange);
      MarkPairFrame(l1, !ProvenEntry(l.last, current), day, before, UnprovenDayOrSourceBoundary);
      MarkFrame(l1, day, ImportCounterResetOrUnavailable);
    }
  }

  lemma SoundGrows(o: Observation, l: Ledger, l': Ledger)
    requires Sound(o, l.unknownDays) && Grows(l, l')
    ensures Sound(o, l'.unknownDays)
  {
  }

  lemma ObservedIsSound(l: Ledger, r: Reading)
    requires l.last.Some? && !l.last.value.permissionKnown ==> l.last.value.now.day in l.unknownDays
    ensures Sound(Observe(l, r), Observed(l, r).unknownDays)
    ensures !r.permissionKnown ==> r.now.day in Observed(l, r).unknownDays
    ensures Current(r).daily.None? ==> r.now.day in Observed(l, r).unknownDays
  {
    var current := Current(r);
    var day := r.now.day;
    CheckSourceFrame(l, r.source, day);
    var l1 := CheckSource(l, r.source, day);
    MarkFrame(l1, day, ImportCounterUnavailable);
    var l2 := MarkIf(l1, current.daily.None?, day, ImportCounterUnavailable);
    MarkFrame(l2, day, ImportPermissionUnproven);
    var l3 := MarkIf(l2, !r.permissionKnown, day, ImportPermissionUnproven);
    BoundaryIsSound(l3, r);
    MarkBoundaryFrame(l3, current);
    MarkFrame(MarkBoundary(l3, current), day, ImportPowerUnavailable);
    assert Observe(l3, r) == Observe(l, r);
    SoundGrows(Observe(l, r), MarkBoundary(l3, current), Observed(l, r));
  }

  lemma TrustGrows(l: Ledger, l': Ledger, log: seq<Observation>)
    requires Trusting(l, log) && Grows(l, l') && l'.last == l.last
    ensures Trusting(l', log)
  {
    forall i | 0 <= i < |log|
      ensures Sound(log[i], l'.unknownDays)
    {
      SoundGrows(log[i], l, l');
    }
  }

  lemma AdvanceTrusts(l: Ledger, r: Reading, log: seq<Observation>)
    requires Trusting(l, log)
    ensures Trusting(Advance(Observed(l, r), Current(r)), log + [Observe(l, r)])
  {
    hide Observed;
    ObservedFrame(l, r);
    ObservedIsSound(l, r);
    TrustGrows(l, Observed(l, r), log);
  }

  lemma AccountedGrows(l: Ledger, l': Ledger, queued: seq<Event>, log: seq<Observation>)
    requires Accounted(l, queued, log) && Grows(l, l') && l'.sequence == l.sequence
    ensures Accounted(l', queued, log)
  {
  }

  lemma OpenedGrows(queued: seq<Event>, log: seq<Observation>, o: Observation)
    requires OpenedByEntry(queued, log)
    ensures OpenedByEntry(queued, log + [o])
  {
    forall k, d | 0 <= k < |queued| && d in queued[k].completeDays
      ensures Entered(log + [o], d)
    {
      assert Entered(log, d);
      var i :| 0 <= i < |log| && log[i].current.now.day == d && EntryProven(log[i]);
      assert (log + [o])[i] == log[i];
    }
  }

  lemma {:induction false} PersistAccounts(l: Ledger, db: Db, i: Interval, queued: seq<Event>, log: seq<Observation>,
                                           o: Observation)
    requires Accounted(l, queued, log)
    requires i.current.now.day == o.current.now.day && i.kwh == Kwh(o) >= 0.0
    ensures Accounted(Persist(l, db, i).0, queued + PersistedEvents(l, db, i), log + [o])
  {
    PersistFrame(l, db, i);
    var events := PersistedEvents(l, db, i);
    var l' := Persist(l, db, i).0;
    forall d | d !in l'.unknownDays || NoneBurned(l', queued + events)
      ensures QueuedKwh(queued + events, d) == LogKwh(log + [o], d)
    {
      LogKwhExtends(log, o, d);
      if events == [] {
        assert queued + events == queued;
      } else {
        QueuedKwhExtends(queued, events[0], d);
        assert events == [events[0]];
      }
    }
  }

  lemma PersistFreeAccounts(l: Ledger, db: Db, i: Interval, queued: seq<Event>, log: seq<Observation>)
    requires Accounted(l, queued, log) && i.kwh == 0.0
    ensures Accounted(Persist(l, db, i).0, queued + PersistedEvents(l, db, i), log)
  {
    PersistFrame(l, db, i);
    var events := PersistedEvents(l, db, i);
    var l' := Persist(l, db, i).0;
    forall d | d !in l'.unknownDays || NoneBurned(l', queued + events)
      ensures QueuedKwh(queued + events, d) == LogKwh(log, d)
    {
      if events == [] {
        assert queued + events == queued;
      } else {
        QueuedKwhExtends(queued, events[0], d);
        assert events == [events[0]];
      }
    }
  }

  lemma IdleReadingAccounts(l: Ledger, queued: seq<Event>, log: seq<Observation>, o: Observation)
    requires Accounted(l, queued, log) && !o.measured
    ensures Accounted(l, queued, log + [o])
  {
    forall d | d !in l.unknownDays || NoneBurned(l, queued)
      ensures QueuedKwh(queued, d) == LogKwh(log + [o], d)
    {
      LogKwhExtends(log, o, d);
    }
  }

  lemma PersistTrusts(l: Ledger, db: Db, i: Interval, log: seq<Observation>)
    requires Trusting(l, log)
    ensures Trusting(Persist(l, db, i).0, log)
  {
    PersistFrame(l, db, i);
    TrustGrows(l, Persist(l, db, i).0, log);
  }

  lemma ReadingTrusts(l: Ledger, db: Db, r: Reading, log: seq<Observation>)
    requires Trusting(l, log)
    ensures Trusting(TakeReading(l, db, r).0, log + [Observe(l, r)])
  {
    AdvanceTrusts(l, r, log);
    var after := Advance(Observed(l, r), Current(r));
    if NeedsEvent(l, Current(r), after) {
      PersistTrusts(after, db, ReadingInterval(l, r, after.last.value), log + [Observe(l, r)]);
    } else {
      FlushFrame(after.(retained := true), db);
      TrustGrows(after, TakeReading(l, db, r).0, log + [Observe(l, r)]);
    }
  }

  lemma MeasuredKwhIsNonnegative(o: Observation)
    ensures Kwh(o) >= 0.0
  {
    ExactlyOnce.MeasuredEnergyIsNonnegative(o.previous, o.current, o.power, o.measured);
  }

  lemma ReadingAccounts(l: Ledger, db: Db, r: Reading, queued: seq<Event>, log: seq<Observation>)
    requires Accounted(l, queued, log)
    ensures Accounted(TakeReading(l, db, r).0, queued + ReadingEvents(l, db, r), log + [Observe(l, r)])
  {
    var current, o := Current(r), Observe(l, r);
    ObservedFrame(l, r);
    AccountedGrows(l, Observed(l, r), queued, log);
    var after := Advance(Observed(l, r), current);
    assert Accounted(after, queued, log);
    MeasuredKwhIsNonnegative(o);
    if NeedsEvent(l, current, after) {
      PersistAccounts(after, db, ReadingInterval(l, r, after.last.value), queued, log, o);
    } else {
      IdleReadingAccounts(after, queued, log, o);
      FlushFrame(after.(retained := true), db);
      assert queued + [] == queued;
    }
  }

  lemma ReadingOpens(l: Ledger, db: Db, r: Reading, queued: seq<Event>, log: seq<Observation>)
    requires OpenedByEntry(queued, log)
    ensures OpenedByEntry(queued + ReadingEvents(l, db, r), log + [Observe(l, r)])
  {
    var log' := log + [Observe(l, r)];
    var events := ReadingEvents(l, db, r);
    OpenedGrows(queued, log, Observe(l, r));
    assert log'[|log|] == Observe(l, r);
    assert forall k, d :: 0 <= k < |events| && d in events[k].completeDays ==> Entered(log', d);
  }

  // ---------------------------------------------------------------- every operation

  ghost predicate Knows(l: Ledger, queued: seq<Event>, log: seq<Observation>) {
    Trusting(l, log) && Accounted(l, queued, log) && OpenedByEntry(queued, log)
  }

  lemma KnowsGrows(l: Ledger, l': Ledger, queued: seq<Event>, log: seq<Observation>)
    requires Knows(l, queued, log) && Grows(l, l') && l'.last == l.last && l'.sequence == l.sequence
    ensures Knows(l', queued, log)
  {
    TrustGrows(l, l', log);
    AccountedGrows(l, l', queued, log);
  }

  lemma InvalidateKnows(l: Ledger, now: Instant, reason: Reason, permissionUnknown: bool,
                        queued: seq<Event>, log: seq<Observation>)
    requires Knows(l, queued, log)
    ensures Knows(Invalidate(l, now, reason, permissionUnknown), queued, log)
  {
    InvalidateFrame(l, now, reason, permissionUnknown);
    var l' := Invalidate(l, now, reason, permissionUnknown);
    AccountedGrows(l, l', queued, log);
    TrustGrows(l, l'.(last := l.last), log);
  }

  lemma TakeReadingKnows(l: Ledger, db: Db, r: Reading, queued: seq<Event>, log: seq<Observation>)
    requires Knows(l, queued, log)
    ensures Knows(TakeReading(l, db, r).0, queued + ReadingEvents(l, db, r), log + [Observe(l, r)])
  {
    ReadingTrusts(l, db, r, log);
    ReadingAccounts(l, db, r, queued, log);
    ReadingOpens(l, db, r, queued, log);
  }

  lemma RecordKnows(l: Ledger, db: Db, r: Reading, queued: seq<Event>, log: seq<Observation>)
    requires Knows(l, queued, log)
    ensures Knows(RecordReading(l, db, r).0, queued + RecordedEvents(l, db, r),
                  if r.now.aware then log + [Observe(l, r)] else log)
  {
    hide TakeReading, Invalidate, LoadCheckpoint, Knows;
    var begun := BeginCapture(l);
    KnowsGrows(l, begun, queued, log);
    if !r.now.aware {
      assert queued + [] == queued;
      InvalidateKnows(begun, r.now, IntervalSnapshotUnretained, false, queued, log);
    } else {
      LoadCheckpointFrame(begun, db, r.now.day);
      var (loaded, read) := LoadCheckpoint(begun, db, r.now.day);
      KnowsGrows(begun, loaded, queued, log);
      TakeReadingKnows(loaded, read, r, queued, log);
      assert Observe(loaded, r) == Observe(l, r);
      InvalidateKnows(TakeReading(loaded, read, r).0, r.now, IntervalSnapshotUnretained, false,
                      queued + RecordedEvents(l, db, r), log + [Observe(l, r)]);
    }
  }

  lemma OwnerKnows(l: Ledger, active: bool, queued: seq<Event>, log: seq<Observation>)
    requires Knows(l, queued, log) && l.last.Some?
    ensures Knows(ChangeOwner(l, active), queued, log)
  {
    hide OpenedByEntry;
  }

  lemma OwnKnows(l: Ledger, db: Db, now: Instant, active: bool, queued: seq<Event>, log: seq<Observation>)
    requires Knows(l, queued, log) && l.last.Some?
    ensures Knows(Own(l, db, now, active).0, queued + OwnEvents(l, db, now, active), log)
  {
    hide Persist, Accounted, Trusting;
    var owned := ChangeOwner(l, active);
    var i := PermissionInterval(owned.last.value, now);
    OwnerKnows(l, active, queued, log);
    PersistFrame(owned, db, i);
    PersistFreeAccounts(owned, db, i, queued, log);
    TrustGrows(owned, Own(l, db, now, active).0, log);
  }

  lemma ChangeKnows(l: Ledger, db: Db, now: Instant, active: bool, queued: seq<Event>, log: seq<Observation>)
    requires Knows(l, queued, log)
    ensures Knows(Change(l, db, now, active).0, queued + ChangeEvents(l, db, now, active), log)
  {
    assert queued + [] == queued;
    if l.last.None? {
      InvalidateKnows(l, now, MissingInitialBoundary, false, queued, log);
    } else if OwnerUnchanged(l, active) {
      FlushFrame(l.(retained := true), db);
      KnowsGrows(l, Change(l, db, now, active).0, queued, log);
    } else {
      OwnKnows(l, db, now, active, queued, log);
    }
  }

  lemma PermissionKnows(l: Ledger, db: Db, now: Instant, source: Source, active: bool,
                        queued: seq<Event>, log: seq<Observation>)
    requires Knows(l, queued, log)
    ensures
      Knows(SetPermission(l, db, now, source, active).0, queued + PermissionEvents(l, db, now, source, active), log)
  {
    var begun := BeginCapture(l);
    CheckSourceFrame(begun, source, now.day);
    var checked := CheckSource(begun, source, now.day);
    KnowsGrows(l, checked, queued, log);
    ChangeKnows(checked, db, now, active, queued, log);
    InvalidateKnows(Change(checked, db, now, active).0, now, PermissionSnapshotUnretained, false,
                    queued + ChangeEvents(checked, db, now, active), log);
  }

  lemma {:induction false} ApplyKnows(s: System, op: Op, origin: Db)
    requires Knows(s.ledger, s.queued, s.log)
    ensures
      var s' := Apply(s, op, origin);
      Knows(s'.ledger, s'.queued, s'.log)
  {
    hide RecordReading, SetPermission, Invalidate, ReadSummary, Flush, Knows;
    var s' := Apply(s, op, origin);
    match op
    case Capture => KnowsGrows(s.ledger, s'.ledger, s.queued, s.log);
    case Read(r) => RecordKnows(s.ledger, s.db, r, s.queued, s.log);
    case Permit(now, source, active) => PermissionKnows(s.ledger, s.db, now, source, active, s.queued, s.log);
    case Dispute(now, reason, permissionUnknown) =>
      InvalidateKnows(s.ledger, now, reason, permissionUnknown, s.queued, s.log);
    case Drain =>
      FlushFrame(s.ledger, s.db);
      KnowsGrows(s.ledger, s'.ledger, s.queued, s.log);
    case Ask(day, source) =>
    case Work =>
    case Abandon(i) =>
    case Deliver(i, again) =>
      if i < |s.replies| {
        LearnedFrame(Retired(s.ledger, s.replies[i].reply), s.replies[i].reply);
        KnowsGrows(s.ledger, s'.ledger, s.queued, s.log);
      }
    case Lose(i) =>
    case Report(day, source, observedAt) =>
      ReadSummaryFrame(s.ledger, s.db, day, source, observedAt);
      KnowsGrows(s.ledger, s'.ledger, s.queued, s.log);
  }

  lemma {:induction false} RunKnows(s: System, ops: seq<Op>, origin: Db)
    requires Knows(s.ledger, s.queued, s.log)
    ensures Knows(Run(s, ops, origin).ledger, Run(s, ops, origin).queued, Run(s, ops, origin).log)
  {
    if ops != [] {
      RunKnows(s, ops[..|ops| - 1], origin);
      ApplyKnows(Run(s, ops[..|ops| - 1], origin), ops[|ops| - 1], origin);
    }
  }

  // ---------------------------------------------------------------- what the energy amounts to

  function SpanKwh(log: seq<Observation>): real {
    if log == [] then 0.0 else SpanKwh(log[..|log| - 1]) + Kwh(log[|log| - 1])
  }

  /** Consecutive measured readings of one day and source whose meters are available. */
  ghost predicate MeteredSpan(log: seq<Observation>) {
    && (forall i :: 0 <= i < |log| ==>
          log[i].measured && SameDay(log[i].previous, log[i].current)
          && log[i].current.daily.Some? && log[i].previous.value.daily.Some?)
    && (forall i :: 0 < i < |log| ==> log[i].previous.value.daily == log[i - 1].current.daily)
  }

  function Growth(o: Observation): real
    requires o.previous.Some? && o.previous.value.daily.Some? && o.current.daily.Some?
  {
    o.current.daily.value - o.previous.value.daily.value
  }

  lemma MeteredStep(o: Observation)
    requires o.measured && SameDay(o.previous, o.current)
    requires o.current.daily.Some? && o.previous.value.daily.Some?
    ensures Kwh(o) >= Growth(o)
    ensures Growth(o) > 0.0 ==> Kwh(o) == Growth(o)
  {
    MeasuredKwhIsNonnegative(o);
  }

  /** A span's energy is at least the meter's growth over it, and equal to it when every reading rises. */
  lemma {:induction false} SpanCoversTheMeter(log: seq<Observation>)
    requires MeteredSpan(log) && log != []
    ensures SpanKwh(log) >= log[|log| - 1].current.daily.value - log[0].previous.value.daily.value
    ensures (forall i :: 0 <= i < |log| ==> Growth(log[i]) > 0.0) ==>
      SpanKwh(log) == log[|log| - 1].current.daily.value - log[0].previous.value.daily.value
  {
    var shorter := log[..|log| - 1];
    MeteredStep(log[|log| - 1]);
    assert forall i :: 0 <= i < |shorter| ==> shorter[i] == log[i];
    if |log| > 1 {
      SpanCoversTheMeter(shorter);
    }
  }

  lemma {:induction false} LogKwhIsNonnegative(log: seq<Observation>, d: Day)
    ensures LogKwh(log, d) >= 0.0
  {
    if log != [] {
      LogKwhIsNonnegative(log[..|log| - 1], d);
      MeasuredKwhIsNonnegative(log[|log| - 1]);
    }
  }

  lemma SpanKwhExtends(log: seq<Observation>, o: Observation)
    ensures SpanKwh(log + [o]) == SpanKwh(log) + Kwh(o)
  {
    assert (log + [o])[..|log|] == log;
  }

  lemma LogKwhOfNothing(d: Day)
    ensures LogKwh([], d) == 0.0 && SpanKwh([]) == 0.0
  {
  }

  /** A day's energy is that of a stretch of its readings and of what lies before and after the stretch. */
  lemma {:induction false} LogKwhSplits(log: seq<Observation>, d: Day, i: int, j: int)
    requires 0 <= i <= j <= |log|
    requires forall k :: i <= k < j ==> log[k].current.now.day == d
    ensures LogKwh(log, d) == LogKwh(log[..i], d) + SpanKwh(log[i..j]) + LogKwh(log[j..], d)
    decreases |log|
  {
    hide LogKwh, SpanKwh, Kwh;
    LogKwhOfNothing(d);
    if i == |log| {
      assert log[..i] == log;
    } else {
      var shorter, last := log[..|log| - 1], log[|log| - 1];
      assert log == shorter + [last] && shorter[..i] == log[..i];
      LogKwhExtends(shorter, last, d);
      if j < |log| {
        LogKwhSplits(shorter, d, i, j);
        assert shorter[i..j] == log[i..j] && shorter[j..] + [last] == log[j..];
        LogKwhExtends(shorter[j..], last, d);
      } else {
        LogKwhSplits(shorter, d, i, j - 1);
        assert log[i..j] == shorter[i..j - 1] + [last] && shorter[j - 1..] == [] && log[j..] == [];
        SpanKwhExtends(shorter[i..j - 1], last);
      }
    }
  }

  /** Readings i to j - 1 are measured, all in one day and from one source, and their meters are available. */
  ghost predicate MeteredReadings(log: seq<Observation>, d: Day, i: int, j: int) {
    && 0 <= i < j <= |log|
    && (forall k :: i <= k < j ==>
          log[k].measured && log[k].current.now.day == d && SameDay(log[k].previous, log[k].current)
          && log[k].current.daily.Some? && log[k].previous.value.daily.Some?)
  }

  /** How far the meter moved over a stretch of readings. */
  function MeterGrowth(log: seq<Observation>, d: Day, i: int, j: int): real
    requires MeteredReadings(log, d, i, j)
  {
    log[j - 1].current.daily.value - log[i].previous.value.daily.value
  }

  ghost predicate Rising(log: seq<Observation>, d: Day, i: int, j: int)
    requires MeteredReadings(log, d, i, j)
  {
    forall k :: i <= k < j ==> Growth(log[k]) > 0.0
  }

  /**
   * The queued energy of the day is at least what was measured outside the stretch plus the meter's growth over it,
   * and exactly that when every reading of the stretch rises.
   */
  ghost predicate CoversTheMeter(s: System, d: Day, i: int, j: int) {
    MeteredReadings(s.log, d, i, j) ==>
      var outside := LogKwh(s.log[..i], d) + LogKwh(s.log[j..], d);
      && outside >= 0.0
      && QueuedKwh(s.queued, d) >= outside + MeterGrowth(s.log, d, i, j)
      && (Rising(s.log, d, i, j) ==> QueuedKwh(s.queued, d) == outside + MeterGrowth(s.log, d, i, j))
  }

  lemma ReadingsAreASpan(l: Ledger, log: seq<Observation>, d: Day, i: int, j: int)
    requires Trusting(l, log) && MeteredReadings(log, d, i, j)
    ensures MeteredSpan(log[i..j])
  {
    var span := log[i..j];
    assert forall k :: 0 <= k < |span| ==> span[k] == log[i + k];
  }

  lemma KnownEnergyCoversTheMeter(s: System, d: Day, i: int, j: int)
    requires Knows(s.ledger, s.queued, s.log)
    requires d !in s.ledger.unknownDays || NoneBurned(s.ledger, s.queued)
    ensures CoversTheMeter(s, d, i, j)
  {
    hide OpenedByEntry, Trusting;
    if MeteredReadings(s.log, d, i, j) {
      var span := s.log[i..j];
      ReadingsAreASpan(s.ledger, s.log, d, i, j);
      assert span[0] == s.log[i] && span[|span| - 1] == s.log[j - 1];
      assert forall k :: 0 <= k < |span| ==> span[k] == s.log[i + k];
      SpanCoversTheMeter(span);
      LogKwhSplits(s.log, d, i, j);
      LogKwhIsNonnegative(s.log[..i], d);
      LogKwhIsNonnegative(s.log[j..], d);
    }
  }

  lemma StartKnows(db: Db, session: Session, started: Instant, source: Source, limit: nat, deferred: bool)
    ensures
      var start := Start(db, session, started, source, limit, deferred);
      Knows(start.ledger, start.queued, start.log)
  {
    assert forall d :: QueuedKwh([], d) == LogKwh([], d);
  }

  /**
   * Conservation: over any run in which no overflow burned a number, the queued events of every day, known or not,
   * carry exactly the energy that the readings of that day measured.
   */
  lemma {:induction false} WithoutOverflowNoEnergyIsLost(
      db: Db, session: Session, started: Instant, source: Source, limit: nat, deferred: bool, ops: seq<Op>, d: Day)
    ensures
      var s := Run(Start(db, session, started, source, limit, deferred), ops, db);
      && |s.queued| <= s.ledger.sequence
      && (NoneBurned(s.ledger, s.queued) ==> QueuedKwh(s.queued, d) == LogKwh(s.log, d))
  {
    StartKnows(db, session, started, source, limit, deferred);
    RunKnows(Start(db, session, started, source, limit, deferred), ops, db);
  }

  /**
   * Over any run, for every day if nothing overflowed and otherwise for every day still trusted: the queued energy
   * covers the meter's growth across any stretch of consecutive measured readings, with equality on a rising stretch.
   */
  lemma {:induction false} QueuedEnergyCoversTheMeter(
      db: Db, session: Session, started: Instant, source: Source, limit: nat, deferred: bool, ops: seq<Op>, d: Day,
      i: int, j: int)
    ensures
      var s := Run(Start(db, session, started, source, limit, deferred), ops, db);
      d !in s.ledger.unknownDays || NoneBurned(s.ledger, s.queued) ==> CoversTheMeter(s, d, i, j)
  {
    hide Knows, CoversTheMeter;
    StartKnows(db, session, started, source, limit, deferred);
    RunKnows(Start(db, session, started, source, limit, deferred), ops, db);
    var s := Run(Start(db, session, started, source, limit, deferred), ops, db);
    if d !in s.ledger.unknownDays || NoneBurned(s.ledger, s.queued) {
      KnownEnergyCoversTheMeter(s, d, i, j);
    }
  }
}
