/** Process-local qualification of fresh reports before solar reacquisition. */
module SolarReentrySpec {
  import opened Options

  type Context = string  // the caller's tuple, of which only equality matters

  /** A pair of report times (PV, load), or of clocks (wall, monotonic). */
  datatype Pair = Pair(fst: real, snd: real)

  datatype Phase = Idle | Closed | Qualifying | Qualified

  datatype Reason =
    | InitialAdmissionUnchanged
    | ClockInvalid
    | ClockRegressed
    | ContextChanged
    | CandidateFailed
    | ReportsUnusable
    | ReportRegressed
    | AdvancingReportGap
    | QualifyingFreshReports
    | WaitingForNewReports
    | FreshReportIntervalQualified
    | QualifiedApplicationCommitted
    | Cause(text: string)

  const QUALIFICATION_SECONDS: real := 30.0
  const MAX_REPORT_GAP_SECONDS: real := 60.0

  datatype Guard = Guard(
    required: bool, generation: nat, phase: Phase, reason: Reason,
    reports: Option<Pair>, context: Option<Context>,
    firstReports: Option<Pair>, started: Option<real>, lastAdvance: Option<Pair>,
    lastClock: Option<Pair>, identity: Option<Context>, highWater: Option<Pair>)

  /** One observation; reports that are missing, malformed or not finite, and clocks that are not finite, are None. */
  datatype Tick = Tick(candidate: bool, reports: Option<Pair>, wall: Option<real>, mono: Option<real>, context: Context)

  function Fresh(): Guard {
    Guard(false, 0, Idle, InitialAdmissionUnchanged, None, None, None, None, None, None, None, None)
  }

  // ---------------------------------------------------------------- the operations

  function Reset(g: Guard, reason: Reason): Guard {
    g.(generation := g.generation + 1, phase := if g.required then Closed else Idle, reason := reason,
       reports := None, context := None, firstReports := None, started := None, lastAdvance := None)
  }

  function Arm(g: Guard, cause: Reason): Guard {
    Reset(g.(required := true), cause)
  }

  predicate FreshAt(reports: Pair, wall: real) {
    && 0.0 <= wall - reports.fst <= MAX_REPORT_GAP_SECONDS
    && 0.0 <= wall - reports.snd <= MAX_REPORT_GAP_SECONDS
  }

  function Begin(g: Guard, reports: Pair, mono: real, context: Context): Guard {
    g.(phase := Qualifying, reason := QualifyingFreshReports, reports := Some(reports), firstReports := Some(reports),
       context := Some(context), started := Some(mono), lastAdvance := Some(Pair(mono, mono)),
       highWater := Some(reports))
  }

  predicate Below(a: Pair, b: Pair) {
    a.fst < b.fst || a.snd < b.snd
  }

  /** The clocks are recorded; a changed context retires the proof and opens a new report epoch. */
  function Clocked(g: Guard, wall: real, mono: real): Guard {
    g.(lastClock := Some(Pair(wall, mono)))
  }

  function InContext(g: Guard, context: Context): Guard {
    if g.identity == Some(context) then g
    else Reset(g, ContextChanged).(identity := Some(context), highWater := None)
  }

  /** A stream jumped too far or has not advanced for too long. */
  predicate Gapped(g: Guard, reports: Pair, mono: real)
    requires g.reports.Some? && g.lastAdvance.Some?
  {
    || reports.fst - g.reports.value.fst > MAX_REPORT_GAP_SECONDS
    || mono - g.lastAdvance.value.fst > MAX_REPORT_GAP_SECONDS
    || reports.snd - g.reports.value.snd > MAX_REPORT_GAP_SECONDS
    || mono - g.lastAdvance.value.snd > MAX_REPORT_GAP_SECONDS
  }

  predicate Advances(reports: Pair, before: Pair) {
    reports.fst > before.fst || reports.snd > before.snd
  }

  function Advanced(g: Guard, reports: Pair, mono: real): Guard
    requires g.reports.Some? && g.lastAdvance.Some?
  {
    var before, at := g.reports.value, g.lastAdvance.value;
    g.(lastAdvance := Some(Pair(if reports.fst > before.fst then mono else at.fst,
                                if reports.snd > before.snd then mono else at.snd)),
       reports := Some(reports), highWater := Some(reports))
  }

  /** Both streams and the monotonic clock span the qualification interval. */
  predicate Spans(first: Pair, started: real, reports: Pair, mono: real) {
    && mono - started >= QUALIFICATION_SECONDS
    && reports.fst - first.fst >= QUALIFICATION_SECONDS
    && reports.snd - first.snd >= QUALIFICATION_SECONDS
  }

  /** What the first checks of a required evaluation decide. */
  datatype Admission =
    | Rejected(guard: Guard)
    | Restarted(guard: Guard)
    | Continued(guard: Guard, newest: Pair, mono: real)

  function AdmitReports(g: Guard, t: Tick, wall: real, mono: real): Admission {
    if !t.candidate then Rejected(Reset(g, CandidateFailed))
    else if t.reports.None? || !FreshAt(t.reports.value, wall) then Rejected(Reset(g, ReportsUnusable))
    else
      var reports := t.reports.value;
      if g.highWater.Some? && Below(reports, g.highWater.value) then Rejected(Reset(g, ReportRegressed))
      else if g.reports.None? || g.lastAdvance.None? then Restarted(Begin(g, reports, mono, t.context))
      else if Gapped(g, reports, mono) then Restarted(Begin(Reset(g, AdvancingReportGap), reports, mono, t.context))
      else Continued(g, reports, mono)
  }

  function Admit(g: Guard, t: Tick): Admission {
    if t.wall.None? || t.mono.None? then Rejected(Reset(g, ClockInvalid))
    else
      var wall, mono := t.wall.value, t.mono.value;
      var clocked := Clocked(g, wall, mono);
      if g.lastClock.Some? && Below(Pair(wall, mono), g.lastClock.value)
      then Rejected(Reset(clocked, ClockRegressed).(highWater := None))
      else AdmitReports(InContext(clocked, t.context), t, wall, mono)
  }

  function Mature(g: Guard, reports: Pair, mono: real): (Guard, bool) {
    if g.reports.None? || g.lastAdvance.None? then (g, false)
    else
      var advances := Advances(reports, g.reports.value);
      var next := Advanced(g, reports, mono);
      if g.phase == Qualified then (next, true)
      else if advances && g.firstReports.Some? && g.started.Some?
              && Spans(g.firstReports.value, g.started.value, reports, mono)
      then (next.(phase := Qualified, reason := FreshReportIntervalQualified), true)
      else (next.(reason := if advances then QualifyingFreshReports else WaitingForNewReports), false)
  }

  function Evaluate(g: Guard, t: Tick): (Guard, bool) {
    if !g.required then (g, true)
    else
      match Admit(g, t)
      case Rejected(g') => (g', false)
      case Restarted(g') => (g', false)
      case Continued(g', reports, mono) => Mature(g', reports, mono)
  }

  predicate IsCurrent(g: Guard, generation: nat, t: Tick) {
    && g.required && g.phase == Qualified && generation == g.generation && g.context == Some(t.context)
    && t.reports == g.reports
    && t.wall.Some? && t.mono.Some?
    && g.lastClock.Some? && !Below(Pair(t.wall.value, t.mono.value), g.lastClock.value)
    && t.reports.Some? && FreshAt(t.reports.value, t.wall.value)
    && g.lastAdvance.Some?
    && 0.0 <= t.mono.value - g.lastAdvance.value.fst <= MAX_REPORT_GAP_SECONDS
    && 0.0 <= t.mono.value - g.lastAdvance.value.snd <= MAX_REPORT_GAP_SECONDS
  }

  function Commit(g: Guard, generation: nat): (Guard, bool) {
    if !g.required || g.phase != Qualified || generation != g.generation then (g, false)
    else (g.(required := false, phase := Idle, reason := QualifiedApplicationCommitted, reports := None,
             context := None, firstReports := None, started := None, lastAdvance := None), true)
  }
}

/** The guard object, whose fields the calls update in place. */
module SolarReentryObject {
  import opened Options
  import opened SolarReentrySpec

  class SolarReentryGuard {
    var required: bool
    var generation: nat
    var phase: Phase
    var reason: Reason
    var reports: Option<Pair>
    var context: Option<Context>
    var firstReports: Option<Pair>
    var started: Option<real>
    var lastAdvance: Option<Pair>
    var lastClock: Option<Pair>
    var identity: Option<Context>
    var highWater: Option<Pair>

    function View(): Guard
      reads this
    {
      Guard(required, generation, phase, reason, reports, context, firstReports, started, lastAdvance,
            lastClock, identity, highWater)
    }

    constructor ()
      ensures View() == Fresh()
    {
      required, generation, phase, reason := false, 0, Idle, InitialAdmissionUnchanged;
      reports, context, firstReports, started, lastAdvance := None, None, None, None, None;
      lastClock, identity, highWater := None, None, None;
    }

    method ResetProof(reason: Reason)
      modifies this
      ensures View() == Reset(old(View()), reason)
    {
      generation := generation + 1;
      phase := if required then Closed else Idle;
      this.reason := reason;
      reports, context, firstReports, started, lastAdvance := None, None, None, None, None;
    }

    method ArmLatch(cause: Reason)
      modifies this
      ensures View() == Arm(old(View()), cause)
    {
      required := true;
      ResetProof(cause);
    }

    method Start(reports: Pair, mono: real, context: Context)
      modifies this
      ensures View() == Begin(old(View()), reports, mono, context)
    {
      phase, reason := Qualifying, QualifyingFreshReports;
      this.reports, firstReports, highWater := Some(reports), Some(reports), Some(reports);
      this.context, started, lastAdvance := Some(context), Some(mono), Some(Pair(mono, mono));
    }

    method EvaluateTick(t: Tick) returns (allowed: bool)
      modifies this
      ensures (View(), allowed) == Evaluate(old(View()), t)
    {
      if !required {
        return true;
      }
      if t.wall.None? || t.mono.None? {
        ResetProof(ClockInvalid);
        return false;
      }
      var previous, mono := lastClock, t.mono.value;
      var now := Pair(t.wall.value, mono);
      lastClock := Some(now);
      if previous.Some? && Below(now, previous.value) {
        ResetProof(ClockRegressed);
        highWater := None;
        return false;
      }
      if identity != Some(t.context) {
        ResetProof(ContextChanged);
        identity, highWater := Some(t.context), None;
      }
      assert View() == InContext(Clocked(old(View()), now.fst, mono), t.context);
      allowed := EvaluateReports(t);
    }

    method EvaluateReports(t: Tick) returns (allowed: bool)
      requires required && t.wall.Some? && t.mono.Some?
      modifies this
      ensures
        (View(), allowed) ==
        match AdmitReports(old(View()), t, t.wall.value, t.mono.value) {
          case Rejected(g') => (g', false)
          case Restarted(g') => (g', false)
          case Continued(g', newest, mono) => Mature(g', newest, mono)
        }
    {
      allowed := false;
      if !t.candidate {
        ResetProof(CandidateFailed);
      } else if t.reports.None? || !FreshAt(t.reports.value, t.wall.value) {
        ResetProof(ReportsUnusable);
      } else if highWater.Some? && Below(t.reports.value, highWater.value) {
        ResetProof(ReportRegressed);
      } else if reports.None? || lastAdvance.None? {
        Start(t.reports.value, t.mono.value, t.context);
      } else if Gapped(View(), t.reports.value, t.mono.value) {
        ResetProof(AdvancingReportGap);
        Start(t.reports.value, t.mono.value, t.context);
      } else {
        allowed := MatureReports(t.reports.value, t.mono.value);
      }
    }

    method MatureReports(newest: Pair, mono: real) returns (allowed: bool)
      requires reports.Some? && lastAdvance.Some?
      modifies this
      ensures (View(), allowed) == Mature(old(View()), newest, mono)
    {
      var before, at := reports.value, lastAdvance.value;
      var advancedPv, advancedLoad := newest.fst > before.fst, newest.snd > before.snd;
      lastAdvance := Some(Pair(if advancedPv then mono else at.fst, if advancedLoad then mono else at.snd));
      reports, highWater := Some(newest), Some(newest);
      if phase == Qualified {
        return true;
      }
      if (advancedPv || advancedLoad) && firstReports.Some? && started.Some?
         && Spans(firstReports.value, started.value, newest, mono) {
        phase, reason := Qualified, FreshReportIntervalQualified;
        return true;
      }
      reason := if advancedPv || advancedLoad then QualifyingFreshReports else WaitingForNewReports;
      allowed := false;
    }

    method CommitGeneration(generation: nat) returns (done: bool)
      modifies this
      ensures (View(), done) == Commit(old(View()), generation)
    {
      if !required || phase != Qualified || generation != this.generation {
        return false;
      }
      required, phase, reason := false, Idle, QualifiedApplicationCommitted;
      reports, context, firstReports, started, lastAdvance := None, None, None, None, None;
      done := true;
    }
  }
}
