/** The ledger's operations as functions of its state and of the tables it may write. */
module ImportLedgerSpec {
  import opened Options
  import opened Accounting
  import opened ImportStateStore

  datatype Sample = Sample(now: Instant, source: Source, daily: Option<real>, active: bool, permissionKnown: bool)

  /** One call of `record`; a number that is not finite arrives as None. */
  datatype Reading = Reading(
    now: Instant, source: Source, daily: Option<real>, power: Option<real>,
    price: Option<real>, priceTrusted: bool, active: bool, permissionKnown: bool)

  datatype Key = Key(generation: nat, revision: nat, day: Day, source: Source, sequence: nat)

  datatype Cached = Cached(key: Key, summary: Summary)

  datatype Ledger = Ledger(
    session: Session, limit: nat, deferred: bool,
    source: Source, sequence: nat, last: Option<Sample>, appliedActive: bool, tailPending: bool,
    pending: seq<Event>, unknownDays: map<Day, Reason>, unknownRevision: nat, queuedRevision: nat,
    checkpointLoaded: bool, retained: bool, generation: nat, cache: Option<Cached>)

  const MAX_GAP_SECONDS: real := 300.0
  const SNAPSHOT_LIMIT: nat := 16

  function Fresh(session: Session, started: Instant, source: Source, limit: nat, deferred: bool): Ledger {
    Ledger(session, limit, deferred, source, 0, None, false, false, [],
           map[started.day := StartupOrLegacyHistory], 1, 0, false, false, 0, None)
  }

  // ---------------------------------------------------------------- unknown days

  function Mark(l: Ledger, day: Day, reason: Reason): Ledger {
    if day in l.unknownDays then l
    else l.(unknownDays := l.unknownDays[day := reason], unknownRevision := l.unknownRevision + 1)
  }

  function MarkIf(l: Ledger, condition: bool, day: Day, reason: Reason): Ledger {
    if condition then Mark(l, day, reason) else l
  }

  function MarkPair(l: Ledger, condition: bool, first: Day, second: Day, reason: Reason): Ledger {
    if condition then Mark(Mark(l, first, reason), second, reason) else l
  }

  function MarkLast(l: Ledger, reason: Reason): Ledger {
    if l.last.Some? then Mark(l, l.last.value.now.day, reason) else l
  }

  function CheckSource(l: Ledger, source: Source, day: Day): Ledger {
    if source == l.source then l
    else MarkLast(Mark(l, day, MeasurementSourceChanged), MeasurementSourceChanged)
  }

  /** The store call's fault is spent whenever the checkpoint is actually read. */
  function LoadCheckpoint(l: Ledger, db: Db, day: Day): (Ledger, Db) {
    if l.checkpointLoaded || l.deferred then (l, db)
    else
      var read := db.(faults := Consume(db.faults));
      if NextFault(db.faults) != NoFault then (Mark(l, day, CheckpointUnavailable), read)
      else
        var marked := if db.checkpoint.Some? then Mark(l, db.checkpoint.value.checkpoint.day, RestartGap) else l;
        (marked.(checkpointLoaded := true), read)
  }

  function BeginCapture(l: Ledger): Ledger {
    l.(generation := l.generation + 1, cache := None, retained := false)
  }

  /** A new generation with no cache, whose last sample keeps its permission only if nothing disputes it. */
  function Retract(l: Ledger, disputed: bool): Ledger {
    l.(generation := l.generation + 1, cache := None,
       last := if disputed && l.last.Some? then Some(l.last.value.(permissionKnown := false)) else l.last)
  }

  function Invalidate(l: Ledger, now: Instant, reason: Reason, permissionUnknown: bool): Ledger {
    MarkLast(Mark(Retract(l, permissionUnknown || reason == ApplicationNotConfirmed), now.day, reason), reason)
  }

  // ---------------------------------------------------------------- measuring one reading

  function Daily(r: Reading): Option<real> {
    if r.daily.Some? && r.daily.value >= 0.0 then r.daily else None
  }

  function Current(r: Reading): Sample {
    Sample(r.now, r.source, Daily(r), r.active, r.permissionKnown)
  }

  function Elapsed(previous: Option<Sample>, now: Instant): real {
    if previous.Some? then now.secs - previous.value.now.secs else 0.0
  }

  predicate InGap(elapsed: real) {
    0.0 <= elapsed <= MAX_GAP_SECONDS
  }

  predicate SameBasis(previous: Option<Sample>, current: Sample) {
    previous.Some? && previous.value.source == current.source
  }

  predicate SameDay(previous: Option<Sample>, current: Sample) {
    SameBasis(previous, current) && previous.value.now.day == current.now.day
  }

  /** An observed inactive boundary: the only evidence that opens a complete day. */
  predicate ProvenEntry(previous: Option<Sample>, current: Sample) {
    && SameBasis(previous, current) && InGap(Elapsed(previous, current.now))
    && previous.value.permissionKnown && current.permissionKnown
    && !previous.value.active && !current.active && current.daily.Some?
  }

  predicate MetersUsable(previous: Sample, current: Sample) {
    current.daily.Some? && previous.daily.Some? && current.daily.value >= previous.daily.value
  }

  /** The days that the boundary checks leave unknown. */
  function MarkBoundary(l: Ledger, current: Sample): Ledger {
    var day := current.now.day;
    if l.last.None? then Mark(l, day, MissingInitialBoundary)
    else
      var previous := l.last.value;
      var gap := !InGap(Elapsed(l.last, current.now));
      var l1 := MarkPair(l, gap, day, previous.now.day, ObservationGapOrClockChange);
      if !SameDay(l.last, current) then
        MarkPair(l1, !ProvenEntry(l.last, current), day, previous.now.day, UnprovenDayOrSourceBoundary)
      else MarkIf(l1, !MetersUsable(previous, current), day, ImportCounterResetOrUnavailable)
  }

  predicate MeasuredActive(l: Ledger, current: Sample) {
    current.active || (l.last.Some? && l.last.value.active) || l.tailPending
  }

  datatype Energy = Energy(kwh: real, source: EnergySource, powerMissing: bool)

  function Clamp(x: real, lo: real, hi: real): real {
    if x < lo then lo else if x > hi then hi else x
  }

  function Measure(previous: Option<Sample>, current: Sample, power: Option<real>, measured: bool): Energy {
    if !measured then Energy(0.0, Inactive, false)
    else
      var metered := SameDay(previous, current) && current.daily.Some? && previous.value.daily.Some?;
      var delta := if metered then Max0(current.daily.value - previous.value.daily.value) else 0.0;
      var source := if metered then DailyImportDelta else UnprovenBoundary;
      if SameDay(previous, current) && delta <= 0.0 then
        if power.None? then Energy(delta, source, true)
        else Energy(Max0(power.value) * Clamp(Elapsed(previous, current.now), 0.0, MAX_GAP_SECONDS) / 3600.0,
                    GridImportPowerIntegral, false)
      else Energy(delta, source, false)
  }

  /** The marks that one reading makes before its energy is known, in the order the source makes them. */
  function Marked(l: Ledger, r: Reading): Ledger {
    var current := Current(r);
    var l1 := CheckSource(l, r.source, r.now.day);
    var l2 := MarkIf(l1, current.daily.None?, r.now.day, ImportCounterUnavailable);
    var l3 := MarkIf(l2, !r.permissionKnown, r.now.day, ImportPermissionUnproven);
    MarkBoundary(l3, current)
  }

  /** All the marks one reading makes. */
  function Observed(l: Ledger, r: Reading): Ledger {
    var current := Current(r);
    var energy := Measure(l.last, current, r.power, MeasuredActive(l, current));
    MarkIf(Marked(l, r), energy.powerMissing, r.now.day, ImportPowerUnavailable)
  }

  /** The measurement boundary moves; a pending import tail keeps its owner for one more interval. */
  function Advance(l: Ledger, current: Sample): Ledger {
    if l.tailPending then
      l.(last := Some(current.(active := l.appliedActive)), tailPending := false, source := current.source)
    else
      l.(last := Some(current), appliedActive := current.active, source := current.source)
  }

  function CompleteDays(previous: Option<Sample>, current: Sample): seq<Day> {
    if previous.Some? && !SameDay(previous, current) && ProvenEntry(previous, current) then [current.now.day] else []
  }

  // ---------------------------------------------------------------- queueing and flushing

  datatype Interval = Interval(
    current: Sample, kwh: real, price: Option<real>, priceTrusted: bool,
    energySource: EnergySource, completeDays: seq<Day>, permissionChangedAt: Option<Instant>)

  /** The event frozen for an interval; its number is the ledger's current sequence. */
  function Freeze(l: Ledger, i: Interval): Event {
    var trusted := i.priceTrusted && i.price.Some?;
    Event(EventId(l.session, l.sequence), i.current.now.day, i.current.now, i.kwh,
          if trusted then i.price else None, trusted, i.energySource,
          Checkpoint(i.current.source, i.current.now.day, i.current.now, i.current.daily, i.current.active,
                     i.current.permissionKnown, l.tailPending),
          l.unknownDays, i.completeDays, i.permissionChangedAt)
  }

  function FlushLoop(l: Ledger, db: Db): (Ledger, Db, Outcome)
    decreases |l.pending|
  {
    if l.pending == [] then (l, db, Done)
    else
      var (db', outcome) := Record(db, l.pending[0]);
      if outcome.Raised? then (l, db', outcome)
      else FlushLoop(l.(pending := l.pending[1..]), db')
  }

  function Flush(l: Ledger, db: Db): (Ledger, Db, Outcome) {
    if l.deferred then (l, db, Done) else FlushLoop(l, db)
  }

  /** Make room for one more event; the number it took stays burned when there is none. */
  function MakeRoom(l: Ledger, db: Db, day: Day): (Ledger, Db, Outcome) {
    if |l.pending| < l.limit then (l, db, Done)
    else
      var (l', db', outcome) := Flush(l, db);
      if outcome.Raised? then (Mark(l', day, PendingIntervalOverflow), db', outcome)
      else if |l'.pending| >= l'.limit then (Mark(l', day, PendingIntervalOverflow), db', Raised(QueueFull))
      else (l', db', Done)
  }

  function Enqueue(l: Ledger, e: Event): Ledger {
    l.(pending := l.pending + [e], retained := true, queuedRevision := l.unknownRevision)
  }

  function Persist(l: Ledger, db: Db, i: Interval): (Ledger, Db, Outcome) {
    var numbered := l.(sequence := l.sequence + 1);
    var (l', db', outcome) := MakeRoom(numbered, db, i.current.now.day);
    if outcome.Raised? then (l', db', outcome)
    else Flush(Enqueue(l', Freeze(numbered, i)), db')
  }

  // ---------------------------------------------------------------- record and set_permission

  /** Whether the reading leaves an accounting event at all. */
  predicate NeedsEvent(before: Ledger, current: Sample, after: Ledger) {
    || MeasuredActive(before, current) || before.last.None? || before.last.value.active
    || !SameDay(before.last, current) || after.unknownRevision != after.queuedRevision
  }

  function ReadingInterval(before: Ledger, r: Reading, kept: Sample): Interval {
    var current := Current(r);
    var energy := Measure(before.last, current, r.power, MeasuredActive(before, current));
    Interval(kept, energy.kwh, r.price, r.priceTrusted, energy.source, CompleteDays(before.last, current), None)
  }

  function TakeReading(l: Ledger, db: Db, r: Reading): (Ledger, Db, Outcome) {
    var current := Current(r);
    var after := Advance(Observed(l, r), current);
    if NeedsEvent(l, current, after) then Persist(after, db, ReadingInterval(l, r, after.last.value))
    else Flush(after.(retained := true), db)
  }

  function RecordReading(l: Ledger, db: Db, r: Reading): (Ledger, Db, Outcome) {
    var begun := BeginCapture(l);
    if !r.now.aware then (Invalidate(begun, r.now, IntervalSnapshotUnretained, false), db, Raised(NaiveTime))
    else
      var (loaded, read) := LoadCheckpoint(begun, db, r.now.day);
      var (l', db', outcome) := TakeReading(loaded, read, r);
      (if outcome.Raised? && !l'.retained then Invalidate(l', r.now, IntervalSnapshotUnretained, false) else l',
       db', outcome)
  }

  /** The ledger once a confirmed application owns the next interval; it has a last sample. */
  function ChangeOwner(l: Ledger, active: bool): Ledger
    requires l.last.Some?
  {
    l.(tailPending := l.tailPending || (l.appliedActive && !active), appliedActive := active,
       last := Some(l.last.value.(active := active, permissionKnown := true)))
  }

  function PermissionInterval(kept: Sample, now: Instant): Interval {
    Interval(kept, 0.0, None, false, PermissionBoundary, [], Some(now))
  }

  /** The permission boundary of a new owner is an interval of no energy. */
  function Own(l: Ledger, db: Db, now: Instant, active: bool): (Ledger, Db, Outcome)
    requires l.last.Some?
  {
    var owned := ChangeOwner(l, active);
    Persist(owned, db, PermissionInterval(owned.last.value, now))
  }

  /** The owner is already recorded and no doubt is outstanding. */
  predicate OwnerUnchanged(l: Ledger, active: bool)
    requires l.last.Some?
  {
    l.last.value.active == active && l.last.value.permissionKnown && l.unknownRevision == l.queuedRevision
  }

  function Change(l: Ledger, db: Db, now: Instant, active: bool): (Ledger, Db, Outcome) {
    if l.last.None? then (Invalidate(l, now, MissingInitialBoundary, false), db, Done)
    else if OwnerUnchanged(l, active) then Flush(l.(retained := true), db)
    else Own(l, db, now, active)
  }

  function ApplyPermission(l: Ledger, db: Db, now: Instant, source: Source, active: bool): (Ledger, Db, Outcome) {
    Change(CheckSource(l, source, now.day), db, now, active)
  }

  function SetPermission(l: Ledger, db: Db, now: Instant, source: Source, active: bool): (Ledger, Db, Outcome) {
    var (l', db', outcome) := ApplyPermission(BeginCapture(l), db, now, source, active);
    (if outcome.Raised? && !l'.retained then Invalidate(l', now, PermissionSnapshotUnretained, false) else l',
     db', outcome)
  }

  // ---------------------------------------------------------------- reconciliation through the worker

  datatype Job = Job(key: Key, payloads: seq<Event>, day: Day, loadCheckpoint: bool)

  datatype Reply = Reply(
    acknowledged: seq<EventId>, checkpoint: Option<Saved>, checkpointRead: bool,
    summary: Option<Summary>, successful: bool)

  function CacheKey(l: Ledger, day: Day, source: Source): Key {
    Key(l.generation, l.unknownRevision, day, source, l.sequence)
  }

  function Snapshot(l: Ledger, day: Day, source: Source): Job {
    Job(CacheKey(l, day, source),
        if |l.pending| <= SNAPSHOT_LIMIT then l.pending else l.pending[..SNAPSHOT_LIMIT],
        day, !l.checkpointLoaded)
  }

  /** Record the payloads in turn up to the first failure. */
  function RecordBatch(db: Db, payloads: seq<Event>): (Db, seq<EventId>, bool)
    decreases |payloads|
  {
    if payloads == [] then (db, [], true)
    else
      var (db', outcome) := Record(db, payloads[0]);
      if outcome.Raised? then (db', [], false)
      else
        var (db'', acknowledged, complete) := RecordBatch(db', payloads[1..]);
        (db'', [payloads[0].id] + acknowledged, complete)
  }

  function RunJob(db: Db, job: Job): (Db, Reply) {
    var read := if job.loadCheckpoint then db.(faults := Consume(db.faults)) else db;
    if job.loadCheckpoint && NextFault(db.faults) != NoFault then (read, Reply([], None, false, None, false))
    else
      var checkpoint := if job.loadCheckpoint then db.checkpoint else None;
      var (db', acknowledged, complete) := RecordBatch(read, job.payloads);
      if !complete then (db', Reply(acknowledged, checkpoint, true, None, false))
      else
        var summarized := db'.(faults := Consume(db'.faults));
        if NextFault(db'.faults) != NoFault then (summarized, Reply(acknowledged, checkpoint, true, None, false))
        else (summarized, Reply(acknowledged, checkpoint, true, Some(Summarize(db', job.day)), true))
  }

  /** Drop queue heads while they match the acknowledged IDs. */
  function Retire(pending: seq<Event>, acknowledged: seq<EventId>): seq<Event>
    decreases |acknowledged|
  {
    if acknowledged == [] || pending == [] || pending[0].id != acknowledged[0] then pending
    else Retire(pending[1..], acknowledged[1..])
  }

  function Retired(l: Ledger, reply: Reply): Ledger {
    l.(cache := if reply.successful then l.cache else None, pending := Retire(l.pending, reply.acknowledged))
  }

  function Learned(l: Ledger, reply: Reply): Ledger {
    if !reply.checkpointRead || l.checkpointLoaded then l
    else
      var marked := if reply.checkpoint.Some?
                    then Mark(l, reply.checkpoint.value.checkpoint.day, RestartGap) else l;
      marked.(checkpointLoaded := true)
  }

  function Accept(l: Ledger, key: Key, reply: Reply): Ledger {
    var learned := Learned(Retired(l, reply), reply);
    if reply.successful && reply.summary.Some? && learned.pending == [] && !learned.tailPending
       && key == CacheKey(learned, key.day, key.source)
    then learned.(cache := Some(Cached(key, reply.summary.value)))
    else learned
  }

  // ---------------------------------------------------------------- summary

  function UnknownSummary(day: Day): Summary {
    Summary(day, 0.0, None, None, false, true, false, HistoryUnavailable)
  }

  function MarkStale(l: Ledger, day: Day, observedAt: Option<Instant>): Ledger {
    if observedAt.None? then l
    else if l.last.None? then Mark(l, day, MissingCurrentProcessBoundary)
    else if InGap(Elapsed(l.last, observedAt.value)) then l
    else MarkLast(Mark(l, day, ObservationGapOrClockChange), ObservationGapOrClockChange)
  }

  /** The ledger's own reason to distrust a day, if it has one. */
  function Doubt(l: Ledger, day: Day): Option<Reason> {
    if day in l.unknownDays then Some(l.unknownDays[day])
    else if exists i :: 0 <= i < |l.pending| && l.pending[i].day == day then Some(IntervalReconciliationPending)
    else if l.tailPending then Some(ImportTailMeasurementPending)
    else None
  }

  function Qualified(l: Ledger, day: Day, stored: Summary): Summary {
    var doubt := Doubt(l, day);
    if stored.complete && doubt.None? then stored
    else stored.(complete := false, reason := if doubt.Some? then doubt.value else stored.reason,
                 floorUnknown := true, floorTrusted := false)
  }

  /** None is the refusal of a time without an offset. */
  function ReadSummary(l: Ledger, db: Db, day: Day, source: Source, observedAt: Option<Instant>)
    : (Ledger, Db, Option<Summary>)
  {
    if observedAt.Some? && !observedAt.value.aware then (l, db, None)
    else
      var (loaded, read) := LoadCheckpoint(MarkStale(l, day, observedAt), db, day);
      var checked := CheckSource(loaded, source, day);
      if checked.deferred then
        if checked.cache.None? || checked.cache.value.key != CacheKey(checked, day, source)
        then (checked, read, Some(UnknownSummary(day)))
        else (checked, read, Some(Qualified(checked, day, checked.cache.value.summary)))
      else
        var summarized := read.(faults := Consume(read.faults));
        if NextFault(read.faults) != NoFault then (checked, summarized, Some(UnknownSummary(day)))
        else (checked, summarized, Some(Qualified(checked, day, Summarize(read, day))))
  }
}

/** The event-loop object itself, updated in place. */
module ImportTopupLedgerObject {
  import opened Options
  import opened Accounting
  import opened ImportStateStore
  import opened ImportLedgerSpec

  class ImportTopupLedger {
    const store: StateStore
    const session: Session
    const limit: nat
    const deferred: bool
    var source: Source
    var sequence: nat
    var last: Option<Sample>
    var appliedActive: bool
    var tailPending: bool
    var pending: seq<Event>
    var unknownDays: map<Day, Reason>
    var unknownRevision: nat
    var queuedRevision: nat
    var checkpointLoaded: bool
    var retained: bool
    var generation: nat
    var cache: Option<Cached>

    function View(): Ledger
      reads this
    {
      Ledger(session, limit, deferred, source, sequence, last, appliedActive, tailPending, pending, unknownDays,
             unknownRevision, queuedRevision, checkpointLoaded, retained, generation, cache)
    }

    constructor (store: StateStore, session: Session, started: Instant, source: Source, limit: nat, deferred: bool)
      requires started.aware && limit >= 1
      ensures this.store == store && View() == Fresh(session, started, source, limit, deferred)
    {
      this.store, this.session, this.limit, this.deferred, this.source := store, session, limit, deferred, source;
      sequence, last, appliedActive, tailPending, pending := 0, None, false, false, [];
      unknownDays := map[started.day := StartupOrLegacyHistory];
      unknownRevision, queuedRevision, checkpointLoaded, retained, generation, cache := 1, 0, false, false, 0, None;
    }

    method MarkUnknown(day: Day, reason: Reason)
      modifies this`unknownDays, this`unknownRevision
      ensures View() == Mark(old(View()), day, reason)
    {
      if day !in unknownDays {
        unknownDays := unknownDays[day := reason];
        unknownRevision := unknownRevision + 1;
      }
    }

    method MarkLastUnknown(reason: Reason)
      modifies this`unknownDays, this`unknownRevision
      ensures View() == MarkLast(old(View()), reason)
    {
      if last.Some? {
        MarkUnknown(last.value.now.day, reason);
      }
    }

    method CheckSourceOf(source: Source, day: Day)
      modifies this`unknownDays, this`unknownRevision
      ensures View() == CheckSource(old(View()), source, day)
    {
      if source != this.source {
        MarkUnknown(day, MeasurementSourceChanged);
        MarkLastUnknown(MeasurementSourceChanged);
      }
    }

    method LoadStoredCheckpoint(day: Day)
      modifies this`unknownDays, this`unknownRevision, this`checkpointLoaded, store`faults
      ensures (View(), store.View()) == LoadCheckpoint(old(View()), old(store.View()), day)
    {
      if checkpointLoaded || deferred {
        return;
      }
      var ok, saved := store.GetCheckpoint();
      if !ok {
        MarkUnknown(day, CheckpointUnavailable);
        return;
      }
      if saved.Some? {
        MarkUnknown(saved.value.checkpoint.day, RestartGap);
      }
      checkpointLoaded := true;
    }

    method StartCapture()
      modifies this`generation, this`cache, this`retained
      ensures View() == BeginCapture(old(View()))
    {
      generation, cache, retained := generation + 1, None, false;
    }

    method InvalidateHistory(now: Instant, reason: Reason, permissionUnknown: bool)
      modifies this
      ensures View() == Invalidate(old(View()), now, reason, permissionUnknown)
    {
      RetractTrust(permissionUnknown || reason == ApplicationNotConfirmed);
      MarkUnknown(now.day, reason);
      MarkLastUnknown(reason);
    }

    method RetractTrust(disputed: bool)
      modifies this`generation, this`cache, this`last
      ensures View() == Retract(old(View()), disputed)
    {
      generation, cache := generation + 1, None;
      if disputed && last.Some? {
        last := Some(last.value.(permissionKnown := false));
      }
    }

    /** The popping loop: an event leaves the queue only after its own acknowledgement. */
    method FlushPending() returns (outcome: Outcome)
      modifies this`pending, store
      ensures (View(), store.View(), outcome) == Flush(old(View()), old(store.View()))
    {
      if deferred {
        return Done;
      }
      while pending != []
        invariant FlushLoop(View(), store.View()) == FlushLoop(old(View()), old(store.View()))
        invariant View() == old(View()).(pending := pending)
        decreases |pending|
      {
        outcome := store.RecordInterval(pending[0]);
        if outcome.Raised? {
          return;
        }
        pending := pending[1..];
      }
      outcome := Done;
    }

    method PersistInterval(i: Interval) returns (outcome: Outcome)
      modifies this, store
      ensures (View(), store.View(), outcome) == Persist(old(View()), old(store.View()), i)
    {
      hide MakeRoom, Flush;
      sequence := sequence + 1;
      ghost var numbered := View();
      assert numbered == old(View()).(sequence := old(View()).sequence + 1);
      var e := Freeze(View(), i);
      outcome := Reserve(i.current.now.day);
      if outcome.Raised? {
        return;
      }
      EnqueueEvent(e);
      outcome := FlushPending();
    }

    method Reserve(day: Day) returns (outcome: Outcome)
      modifies this`pending, this`unknownDays, this`unknownRevision, store
      ensures (View(), store.View(), outcome) == MakeRoom(old(View()), old(store.View()), day)
    {
      if |pending| < limit {
        return Done;
      }
      outcome := FlushPending();
      if outcome == Done && |pending| >= limit {
        outcome := Raised(QueueFull);
      }
      if outcome.Raised? {
        MarkUnknown(day, PendingIntervalOverflow);
      }
    }

    method EnqueueEvent(e: Event)
      modifies this`pending, this`retained, this`queuedRevision
      ensures View() == Enqueue(old(View()), e)
    {
      pending := pending + [e];
      retained := true;
      queuedRevision := unknownRevision;
    }

    /** The measuring step: every mark, the energy of the interval and the moved boundary. */
    method MeasureReading(r: Reading) returns (interval: Interval, measured: bool)
      modifies this
      ensures View() == Advance(Observed(old(View()), r), Current(r))
      ensures interval == ReadingInterval(old(View()), r, last.value)
      ensures measured == MeasuredActive(old(View()), Current(r))
    {
      hide Observed, Measure, MeasuredActive;
      var kwh, source, completeDays;
      kwh, source, completeDays, measured := ObserveReading(r);
      AdvanceBoundary(Current(r));
      interval := Interval(last.value, kwh, r.price, r.priceTrusted, source, completeDays, None);
    }

    method ObserveReading(r: Reading)
      returns (kwh: real, source: EnergySource, completeDays: seq<Day>, measured: bool)
      modifies this`unknownDays, this`unknownRevision
      ensures View() == Observed(old(View()), r)
      ensures measured == MeasuredActive(old(View()), Current(r))
      ensures
        var energy := Measure(last, Current(r), r.power, measured);
        kwh == energy.kwh && source == energy.source && completeDays == CompleteDays(last, Current(r))
    {
      hide Marked, Measure;
      var current := Current(r);
      completeDays := MarkReading(r);
      measured := current.active || (last.Some? && last.value.active) || tailPending;
      var powerMissing;
      kwh, source, powerMissing := MeasureEnergy(last, current, r.power, measured);
      if powerMissing {
        MarkUnknown(r.now.day, ImportPowerUnavailable);
      }
    }

    method MarkReading(r: Reading) returns (completeDays: seq<Day>)
      modifies this`unknownDays, this`unknownRevision
      ensures View() == Marked(old(View()), r)
      ensures completeDays == CompleteDays(last, Current(r))
    {
      hide CheckSource, MarkBoundary;
      CheckSourceOf(r.source, r.now.day);
      if Current(r).daily.None? {
        MarkUnknown(r.now.day, ImportCounterUnavailable);
      }
      if !r.permissionKnown {
        MarkUnknown(r.now.day, ImportPermissionUnproven);
      }
      completeDays := CheckBoundary(Current(r));
    }

    static method MeasureEnergy(previous: Option<Sample>, current: Sample, power: Option<real>, measured: bool)
      returns (kwh: real, source: EnergySource, powerMissing: bool)
      ensures Energy(kwh, source, powerMissing) == Measure(previous, current, power, measured)
    {
      kwh, source, powerMissing := 0.0, Inactive, false;
      if measured {
        source := UnprovenBoundary;
        var sameDay := SameDay(previous, current);
        if sameDay && current.daily.Some? && previous.value.daily.Some? {
          kwh := Max0(current.daily.value - previous.value.daily.value);
          source := DailyImportDelta;
        }
        if sameDay && kwh <= 0.0 {
          if power.Some? {
            kwh := Max0(power.value) * Clamp(Elapsed(previous, current.now), 0.0, MAX_GAP_SECONDS) / 3600.0;
            source := GridImportPowerIntegral;
          } else {
            powerMissing := true;
          }
        }
      }
    }

    method AdvanceBoundary(current: Sample)
      modifies this`last, this`appliedActive, this`tailPending, this`source
      ensures View() == Advance(old(View()), current)
    {
      if tailPending {
        last := Some(current.(active := appliedActive));
        tailPending := false;
      } else {
        appliedActive := current.active;
        last := Some(current);
      }
      source := current.source;
    }

    method CheckBoundary(current: Sample) returns (completeDays: seq<Day>)
      modifies this`unknownDays, this`unknownRevision
      ensures View() == MarkBoundary(old(View()), current)
      ensures completeDays == CompleteDays(last, current)
    {
      var day := current.now.day;
      completeDays := [];
      if last.None? {
        MarkUnknown(day, MissingInitialBoundary);
        return;
      }
      var elapsed := Elapsed(last, current.now);
      if elapsed < 0.0 || elapsed > MAX_GAP_SECONDS {
        MarkUnknown(day, ObservationGapOrClockChange);
        MarkUnknown(last.value.now.day, ObservationGapOrClockChange);
      }
      if !SameDay(last, current) {
        if ProvenEntry(last, current) {
          completeDays := [day];
        } else {
          MarkUnknown(day, UnprovenDayOrSourceBoundary);
          MarkUnknown(last.value.now.day, UnprovenDayOrSourceBoundary);
        }
      } else if !MetersUsable(last.value, current) {
        MarkUnknown(day, ImportCounterResetOrUnavailable);
      }
    }

    method Record(r: Reading) returns (outcome: Outcome)
      modifies this, store
      ensures (View(), store.View(), outcome) == RecordReading(old(View()), old(store.View()), r)
    {
      hide LoadCheckpoint, Persist, Flush, Observed, Measure;
      StartCapture();
      if !r.now.aware {
        InvalidateHistory(r.now, IntervalSnapshotUnretained, false);
        return Raised(NaiveTime);
      }
      LoadStoredCheckpoint(r.now.day);
      ghost var loaded, read := View(), store.View();
      var previous := last;
      var interval, measured := MeasureReading(r);
      if measured || previous.None? || previous.value.active || !SameDay(previous, Current(r))
         || unknownRevision != queuedRevision {
        outcome := PersistInterval(interval);
      } else {
        retained := true;
        outcome := FlushPending();
      }
      assert (View(), store.View(), outcome) == TakeReading(loaded, read, r);
      if outcome.Raised? && !retained {
        InvalidateHistory(r.now, IntervalSnapshotUnretained, false);
      }
    }

    method SetPermissionOwner(now: Instant, source: Source, active: bool) returns (outcome: Outcome)
      modifies this, store
      ensures (View(), store.View(), outcome) == SetPermission(old(View()), old(store.View()), now, source, active)
    {
      StartCapture();
      CheckSourceOf(source, now.day);
      if last.None? {
        InvalidateHistory(now, MissingInitialBoundary, false);
        return Done;
      }
      if last.value.active == active && last.value.permissionKnown && unknownRevision == queuedRevision {
        retained := true;
        outcome := FlushPending();
      } else {
        TakeOwnership(active);
        outcome := PersistInterval(PermissionInterval(last.value, now));
      }
      if outcome.Raised? && !retained {
        InvalidateHistory(now, PermissionSnapshotUnretained, false);
      }
    }

    method TakeOwnership(active: bool)
      requires last.Some?
      modifies this`last, this`appliedActive, this`tailPending
      ensures View() == ChangeOwner(old(View()), active)
    {
      if appliedActive && !active {
        tailPending := true;
      }
      appliedActive := active;
      last := Some(last.value.(active := active, permissionKnown := true));
    }

    /** Acknowledgements pop matching heads only; the cache opens only on the exact current key. */
    method AcceptReconciliation(key: Key, reply: Reply)
      modifies this
      ensures View() == Accept(old(View()), key, reply)
    {
      RetireHeads(reply);
      LearnCheckpoint(reply);
      if reply.successful && reply.summary.Some? && pending == [] && !tailPending
         && key == CacheKey(View(), key.day, key.source) {
        cache := Some(Cached(key, reply.summary.value));
      }
    }

    method RetireHeads(reply: Reply)
      modifies this`cache, this`pending
      ensures View() == Retired(old(View()), reply)
    {
      if !reply.successful {
        cache := None;
      }
      var i := 0;
      while i < |reply.acknowledged| && pending != [] && pending[0].id == reply.acknowledged[i]
        invariant 0 <= i <= |reply.acknowledged|
        invariant Retire(pending, reply.acknowledged[i..]) == Retire(old(pending), reply.acknowledged)
        invariant cache == if reply.successful then old(cache) else None
      {
        assert reply.acknowledged[i..][1..] == reply.acknowledged[i + 1..];
        pending := pending[1..];
        i := i + 1;
      }
      ghost var rest := reply.acknowledged[i..];
      assert rest != [] ==> rest[0] == reply.acknowledged[i];
      assert pending == Retire(old(pending), reply.acknowledged);
    }

    method LearnCheckpoint(reply: Reply)
      modifies this`unknownDays, this`unknownRevision, this`checkpointLoaded
      ensures View() == Learned(old(View()), reply)
    {
      if reply.checkpointRead && !checkpointLoaded {
        if reply.checkpoint.Some? {
          MarkUnknown(reply.checkpoint.value.checkpoint.day, RestartGap);
        }
        checkpointLoaded := true;
      }
    }

    method ReadDaySummary(day: Day, source: Source, observedAt: Option<Instant>) returns (summary: Option<Summary>)
      modifies this`unknownDays, this`unknownRevision, this`checkpointLoaded, store`faults
      ensures (View(), store.View(), summary) ==
              ReadSummary(old(View()), old(store.View()), day, source, observedAt)
    {
      if observedAt.Some? && !observedAt.value.aware {
        return None;
      }
      if observedAt.Some? {
        if last.None? {
          MarkUnknown(day, MissingCurrentProcessBoundary);
        } else if !InGap(Elapsed(last, observedAt.value)) {
          MarkUnknown(day, ObservationGapOrClockChange);
          MarkLastUnknown(ObservationGapOrClockChange);
        }
      }
      LoadStoredCheckpoint(day);
      CheckSourceOf(source, day);
      var stored;
      if deferred {
        if cache.None? || cache.value.key != CacheKey(View(), day, source) {
          return Some(UnknownSummary(day));
        }
        stored := cache.value.summary;
      } else {
        var ok, found := store.ImportTopupSummary(day);
        if !ok {
          return Some(UnknownSummary(day));
        }
        stored := found;
      }
      summary := Some(Qualified(View(), day, stored));
    }
  }
}
