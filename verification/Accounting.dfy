/** The values that cross between the import ledger, the database worker and the store. */
module Accounting {

  import opened Options

  type Day = string      // a local calendar date in ISO form
  type Source = string   // the identity of the measuring sensors
  type Session = string  // one ledger process

  /** A local time: its calendar date, its position on the clock in seconds, and whether it carries an offset. */
  datatype Instant = Instant(day: Day, secs: real, aware: bool)

  datatype Reason =
    | StartupOrLegacyHistory
    | RestartGap
    | CheckpointUnavailable
    | MeasurementSourceChanged
    | ImportCounterUnavailable
    | ImportPermissionUnproven
    | ObservationGapOrClockChange
    | MissingInitialBoundary
    | UnprovenDayOrSourceBoundary
    | ImportCounterResetOrUnavailable
    | ImportPowerUnavailable
    | PendingIntervalOverflow
    | IntervalSnapshotUnretained
    | PermissionSnapshotUnretained
    | ApplicationNotConfirmed
    | MissingCurrentProcessBoundary
    | IntervalReconciliationPending
    | ImportTailMeasurementPending
    | HistoryUnavailable
    | ContinuousCoverage
    | CoverageNotProven
    | CoverageNotRecorded
    | CallerReason(text: string)

  datatype EnergySource =
    | Inactive
    | UnprovenBoundary
    | DailyImportDelta
    | GridImportPowerIntegral
    | PermissionBoundary

  /** A session identifier holds no colon, so the text "session:sequence" and this pair carry the same information. */
  datatype EventId = EventId(session: Session, sequence: nat)

  datatype Checkpoint = Checkpoint(
    source: Source, day: Day, at: Instant, dailyKwh: Option<real>, importActive: bool,
    permissionKnown: bool, tailPending: bool)

  /** One interval, frozen when it is queued. */
  datatype Event = Event(
    id: EventId, day: Day, at: Instant, kwh: real, price: Option<real>, trusted: bool,
    energySource: EnergySource, checkpoint: Checkpoint,
    unknownDays: map<Day, Reason>, completeDays: seq<Day>, permissionChangedAt: Option<Instant>)

  datatype Summary = Summary(
    day: Day, totalKwh: real, highestPrice: Option<real>, exportFloor: Option<real>,
    floorTrusted: bool, floorUnknown: bool, complete: bool, reason: Reason)

  datatype Failure = InvalidEvent | EventIdReused | DatabaseFailure | QueueFull | NaiveTime

  datatype Outcome = Done | Raised(failure: Failure)

  function Max0(x: real): (r: real)
    ensures r >= 0.0 && r >= x
    ensures r == 0.0 || r == x
  {
    if x < 0.0 then 0.0 else x
  }
}
