/** More theorems over whole runs: where appends land, how trust in a clock ends and drifts, settled downloads. */
module TraceRuns {
  import opened Options
  import opened TraceClock
  import opened TraceArchiveSpec
  import opened TraceRecovery
  import opened TraceAppending
  import opened TraceFlushing
  import opened TraceDownloadSpec
  import opened TraceViews

  lemma LastStep(s: System, ops: seq<Op>)
    requires ops != []
    ensures Run(s, ops) == Apply(Run(s, ops[..|ops| - 1]), ops[|ops| - 1])
  {
  }

  /** The archive that k steps of a run leave. */
  function ArchiveAt(s: System, ops: seq<Op>, k: nat): Archive
    requires k <= |ops|
  {
    Run(s, ops[..k]).desk.archive
  }

  // ---------------------------------------------------------------- where appends land

  /** What a flush that comes to write has before its first append, and the batches it is to append. */
  datatype Writing = Writing(archive: Archive, batches: seq<Batch>)

  function ToWrite(a: Archive, rows: seq<Candidate>, now: int, w: Weather): Option<Writing> {
    var (judged, verdict) := Judge(a, now, w);
    if a.stopping || !verdict.Acts? then None
    else
      var (repaired, ok) := Settle(judged, w.repair, judged.deferred);
      var g := Gather(rows, repaired.index.committed, verdict.now);
      if !ok then None
      else Some(Writing(repaired.(gaps := NoteIf(repaired.gaps, g.future, DiscardedRecord)), g.batches))
  }

  /** That is what the flush does: it appends those batches to that archive, and prunes only when all of them went. */
  lemma FlushAppendsThem(a: Archive, rows: seq<Candidate>, now: int, w: Weather)
    requires ToWrite(a, rows, now, w).Some?
    ensures
      var t, cutoff := ToWrite(a, rows, now, w).value, Judge(a, now, w).1.now - RETENTION;
      var (appended, fate) := AppendTo(t.archive, t.batches, |t.batches|, w.puts);
      match fate
      case Breaks => Flush(a, rows, now, w) == (Broken(appended), false)
      case Halts => Flush(a, rows, now, w) == (appended, false)
      case Goes => Flush(a, rows, now, w).0.disk == Prune(appended, cutoff, w.sweeps).disk
  {
    hide Judge, Settle, Gather, AppendTo, Prune;
  }

  lemma WritersAreExact(a: Archive, rows: seq<Candidate>, now: int, w: Weather)
    requires Sound(a) && ToWrite(a, rows, now, w).Some?
    ensures
      var t := ToWrite(a, rows, now, w).value;
      && Listing(t.archive.disk) && Matches(t.archive) && !t.archive.deferred
      && WellBatched(t.batches) && BatchIds(t.batches) !! t.archive.index.committed
  {
    hide Matches, Listing, SameKeys, Recovers, Judge, Settle, WellBatched, BatchIds, Gather;
    FlushIsJudged(a, now, w);
    var (judged, verdict) := Judge(a, now, w);
    RepairRecovers(judged, w);
    var repaired := Settle(judged, w.repair, judged.deferred).0;
    GatheringTakesWhatIsDue(rows, repaired.index.committed, verdict.now);
    MatchesIsFramed(repaired, ToWrite(a, rows, now, w).value.archive);
  }

  /**
   * In every run, whatever was on disk at boot, a batch that a flush comes to write goes to a segment that ends in a
   * complete line and holds nothing but complete rows of its hour.
   */
  lemma NoAppendMeetsATornLine(d: Disk, clock: Clock, history: seq<Epoch>, ops: seq<Op>, flush: Op, k: nat)
    requires Listing(d) && flush.FlushOp?
    requires
      var t := ToWrite(Run(Booted(d, clock, history), ops).desk.archive, flush.rows, flush.now, flush.weather);
      t.Some? && k < |t.value.batches| && AppendTo(t.value.archive, t.value.batches, k, flush.weather.puts).1 == Goes
    ensures
      var a := Run(Booted(d, clock, history), ops).desk.archive;
      var t := ToWrite(a, flush.rows, flush.now, flush.weather).value;
      var f := FileAt(AppendTo(t.archive, t.batches, k, flush.weather.puts).0.disk.files, t.batches[k].hour);
      !f.torn && TidyLines(f.lines, t.batches[k].hour)
  {
    hide Sound, Balanced, StableViews, Run, ToWrite, AppendTo, Matches, Listing, WellBatched, BatchIds, TidyLines;
    BootedIsOrderly(d, clock, history);
    RunIsOrderly(Booted(d, clock, history), ops);
    var a := Run(Booted(d, clock, history), ops).desk.archive;
    WritersAreExact(a, flush.rows, flush.now, flush.weather);
    var t := ToWrite(a, flush.rows, flush.now, flush.weather).value;
    AppendsLandOnCompleteLines(t.archive, t.batches, k, flush.weather.puts);
  }

  // ---------------------------------------------------------------- trust over a run

  ghost predicate SameAnchor(c: Clock, c': Clock) {
    c'.wall == c.wall && c'.mono == c.mono
  }

  /** Until attestation is given the anchor stays where it is, and published history only grows. */
  ghost predicate Waits(a: Archive, b: Archive) {
    a.history <= b.history && (a.clock.attest && b.clock.attest ==> SameAnchor(a.clock, b.clock))
  }

  /** A flush with corroboration by both sources, after publishing the archive as it stood under the anchor given up. */
  ghost predicate Attests(a: Archive, b: Archive, op: Op) {
    op.FlushOp? && op.weather.probe.proof && exists files :: Published(a, b, files)
  }

  lemma JudgedClockWaits(a: Archive, now: int, w: Weather)
    requires Sound(a) && !a.recoveryNeeded && a.clock.attest
    ensures
      var b := JudgeClock(a, now, w).0;
      b.clock.attest ==> SameAnchor(a.clock, b.clock)
  {
    hide Matches, Reanchor, Listing, SameKeys;
    var checked, p := Checked(a, now, w.mono), w.probe;
    var probed := checked.(clock := checked.clock.(nextProbe := p.mono + FLUSH_INTERVAL));
    MatchesIsFramed(a, probed);
    ReanchoringPublishes(probed, now, p);
  }

  lemma SettlingKeepsTrust(a: Archive, pass: Pass, needed: bool)
    requires Sound(a)
    ensures SameTrust(a, Settle(a, pass, needed).0)
    ensures needed == a.recoveryNeeded && Settle(a, pass, needed).1 ==>
              Sound(Settle(a, pass, needed).0) && !Settle(a, pass, needed).0.recoveryNeeded
  {
    hide Recover, Matches, Recovers, Listing, SameKeys;
    if needed {
      RecoveryRecovers(a, pass);
    }
  }

  /** The clock that a flush leaves is the one that its judgement left. */
  lemma FlushedClock(a: Archive, rows: seq<Candidate>, now: int, w: Weather)
    requires Sound(a)
    ensures
      var b := Flush(a, rows, now, w).0;
      var (settled, ok) := Settle(a, w.opening, a.recoveryNeeded);
      && settled.clock == a.clock
      && b.clock == if a.stopping || !ok then a.clock else JudgeClock(settled, now, w).0.clock
  {
    hide JudgeClock, Act, Settle, Sound;
    SettlingKeepsTrust(a, w.opening, a.recoveryNeeded);
    var (judged, verdict) := Judge(a, now, w);
    if verdict.Acts? {
      ActingKeepsTrust(judged, rows, verdict.now, w);
    }
  }

  lemma FlushWaits(a: Archive, rows: seq<Candidate>, now: int, w: Weather)
    requires Sound(a)
    ensures Waits(a, Flush(a, rows, now, w).0)
  {
    hide JudgeClock, Settle, Sound, Flush;
    FlushEarnsTrust(a, rows, now, w);
    FlushedClock(a, rows, now, w);
    SettlingKeepsTrust(a, w.opening, a.recoveryNeeded);
    var (settled, ok) := Settle(a, w.opening, a.recoveryNeeded);
    if ok && a.clock.attest {
      JudgedClockWaits(settled, now, w);
    }
  }

  lemma OpeningWaits(d: Desk, o: Opening)
    ensures
      var b := Open(d, o).0.archive;
      Waits(d.archive, b) && b.clock.attest == d.archive.clock.attest
  {
    hide Openable, Found;
  }

  lemma StepWaits(s: System, op: Op)
    requires Sound(s.desk.archive) && !op.RestartOp?
    ensures
      var a, b := s.desk.archive, Apply(s, op).desk.archive;
      Waits(a, b) && (a.clock.attest && !b.clock.attest ==> Attests(a, b, op))
  {
    hide Flush, Open, Sound, Published;
    match op {
      case FlushOp(rows, now, weather) =>
        FlushEarnsTrust(s.desk.archive, rows, now, weather);
        FlushWaits(s.desk.archive, rows, now, weather);
      case OpenOp(opening) => OpeningWaits(s.desk, opening);
      case _ =>
    }
  }

  /** Some step of the run gave the attestation. */
  ghost predicate AttestedIn(s: System, ops: seq<Op>) {
    exists k: nat | k < |ops| :: Attests(ArchiveAt(s, ops, k), ArchiveAt(s, ops, k + 1), ops[k])
  }

  lemma AttestedLater(s: System, ops: seq<Op>)
    requires ops != [] && AttestedIn(s, ops[..|ops| - 1])
    ensures AttestedIn(s, ops)
  {
    hide Run, Attests;
    var less := ops[..|ops| - 1];
    var k: nat :| k < |less| && Attests(ArchiveAt(s, less, k), ArchiveAt(s, less, k + 1), less[k]);
    assert less[..k] == ops[..k] && less[..k + 1] == ops[..k + 1];
    assert Attests(ArchiveAt(s, ops, k), ArchiveAt(s, ops, k + 1), ops[k]);
  }

  lemma AttestedNow(s: System, ops: seq<Op>)
    requires ops != []
    requires Attests(Run(s, ops[..|ops| - 1]).desk.archive, Run(s, ops).desk.archive, ops[|ops| - 1])
    ensures AttestedIn(s, ops)
  {
    hide Run, Attests;
    var k := |ops| - 1;
    assert ops[..k + 1] == ops;
    assert Attests(ArchiveAt(s, ops, k), ArchiveAt(s, ops, k + 1), ops[k]);
  }

  /**
   * Over any run within one process published history only grows, and a required attestation ends only at a flush that
   * two independent sources corroborate, after a copy of the archive as it stood is published under the old anchor.
   * Until then no flush and no download moves that anchor.
   */
  lemma {:induction false} AttestationEndsOnlyWithProof(s: System, ops: seq<Op>)
    requires Sound(s.desk.archive) && forall i :: 0 <= i < |ops| ==> !ops[i].RestartOp?
    ensures
      var a, b := s.desk.archive, Run(s, ops).desk.archive;
      && a.history <= b.history
      && (a.clock.attest ==> AttestedIn(s, ops) || (b.clock.attest && SameAnchor(a.clock, b.clock)))
  {
    hide Sound, Apply, Attests, AttestedIn;
    if ops != [] {
      var less, op := ops[..|ops| - 1], ops[|ops| - 1];
      AttestationEndsOnlyWithProof(s, less);
      RunKeepsTheArchive(s, less);
      StepWaits(Run(s, less), op);
      LastStep(s, ops);
      if AttestedIn(s, less) {
        AttestedLater(s, ops);
      } else if Attests(Run(s, less).desk.archive, Run(s, ops).desk.archive, op) {
        AttestedNow(s, ops);
      }
    }
  }

  // ---------------------------------------------------------------- drift over a run

  predicate ChecksTime(op: Op) {
    op.FlushOp? || op.OpenOp?
  }

  function Checks(ops: seq<Op>): nat {
    if ops == [] then 0 else Checks(ops[..|ops| - 1]) + if ChecksTime(ops[|ops| - 1]) then 1 else 0
  }

  /** The second anchor lies on the time line of the first, give or take 300 s for each of n checks. */
  ghost predicate Drifts(c: Clock, c': Clock, n: nat) {
    && c.wall.Some? && c'.wall.Some? && c'.mono >= c.mono
    && Abs(c'.wall.value - (c.wall.value + (c'.mono - c.mono))) <= CLOCK_JUMP * n
  }

  lemma JudgedClockDrifts(a: Archive, now: int, w: Weather)
    requires a.clock.wall.Some? && !w.probe.proof
    ensures Drifts(a.clock, JudgeClock(a, now, w).0.clock, 1)
  {
  }

  lemma OpeningDrifts(d: Desk, o: Opening)
    requires d.archive.clock.wall.Some?
    ensures Drifts(d.archive.clock, Open(d, o).0.archive.clock, 1)
  {
    hide Openable, Found;
  }

  lemma StepDrifts(s: System, op: Op)
    requires Sound(s.desk.archive) && s.desk.archive.clock.wall.Some?
    requires !op.RestartOp? && (op.FlushOp? ==> !op.weather.probe.proof)
    ensures Drifts(s.desk.archive.clock, Apply(s, op).desk.archive.clock, if ChecksTime(op) then 1 else 0)
  {
    hide Flush, Open, Sound, Settle, JudgeClock;
    match op {
      case FlushOp(rows, now, weather) =>
        FlushedClock(s.desk.archive, rows, now, weather);
        JudgedClockDrifts(Settle(s.desk.archive, weather.opening, s.desk.archive.recoveryNeeded).0, now, weather);
      case OpenOp(opening) => OpeningDrifts(s.desk, opening);
      case _ =>
    }
  }

  lemma DriftsAdd(a: Clock, b: Clock, c: Clock, m: nat, n: nat)
    requires Drifts(a, b, m) && Drifts(b, c, n)
    ensures Drifts(a, c, m + n)
  {
  }

  /**
   * Over any run of flushes, downloads and the rest, in one process and without outside corroboration, the anchor moves
   * against the monotonic clock by at most 300 s for each flush or opened download.
   */
  lemma {:induction false} RunDriftIsBounded(s: System, ops: seq<Op>)
    requires Sound(s.desk.archive) && s.desk.archive.clock.wall.Some?
    requires forall i :: 0 <= i < |ops| ==> !ops[i].RestartOp? && (ops[i].FlushOp? ==> !ops[i].weather.probe.proof)
    ensures Drifts(s.desk.archive.clock, Run(s, ops).desk.archive.clock, Checks(ops))
  {
    hide Sound, Apply;
    if ops != [] {
      var less, op := ops[..|ops| - 1], ops[|ops| - 1];
      RunDriftIsBounded(s, less);
      RunKeepsTheArchive(s, less);
      StepDrifts(Run(s, less), op);
      LastStep(s, ops);
      hide Drifts;
      DriftsAdd(s.desk.archive.clock, Run(s, less).desk.archive.clock, Run(s, ops).desk.archive.clock, Checks(less),
                if ChecksTime(op) then 1 else 0);
    }
  }

  // ---------------------------------------------------------------- settled downloads over a run

  ghost predicate SameView(v: Download, w: Download) {
    w.pieces == v.pieces && w.cutoff == v.cutoff
  }

  lemma StepKeepsTheView(s: System, op: Op, i: nat)
    requires i < |s.views| && !op.RestartOp?
    ensures i < |Apply(s, op).views| && SameView(s.views[i], Apply(s, op).views[i])
  {
    hide Flush, Open;
  }

  lemma {:induction false} RunKeepsTheView(s: System, ops: seq<Op>, i: nat)
    requires i < |s.views| && forall j :: 0 <= j < |ops| ==> !ops[j].RestartOp?
    ensures i < |Run(s, ops).views| && SameView(s.views[i], Run(s, ops).views[i])
  {
    hide Apply;
    if ops != [] {
      RunKeepsTheView(s, ops[..|ops| - 1], i);
      StepKeepsTheView(Run(s, ops[..|ops| - 1]), ops[|ops| - 1], i);
    }
  }

  /** The rows that the segments of a view held when it opened, from its cutoff on, in order. */
  function HeldRows(pieces: seq<Piece>, cutoff: int): seq<Row> {
    if pieces == [] then [] else Recent(pieces[0].found.lines, cutoff) + HeldRows(pieces[1..], cutoff)
  }

  lemma {:induction false} WholeStream(pieces: seq<Piece>, cutoff: int)
    requires forall i :: 0 <= i < |pieces| ==> Captured(pieces[i]) == pieces[i].found.lines
    ensures Stream(pieces, cutoff) == HeldRows(pieces, cutoff)
  {
    if pieces != [] {
      WholeStream(pieces[1..], cutoff);
    }
  }

  lemma InRangeIsKept(v: Download, w: Download)
    requires InRange(v) && SameView(v, w)
    ensures InRange(w)
  {
  }

  /**
   * A download that opens while no recovery is pending, at any moment of any run, sends exactly the rows that its
   * segments held at that moment, in order, whatever is flushed, trimmed or torn while it is read.
   */
  lemma SettledDownloadsAreExact(d: Disk, clock: Clock, history: seq<Epoch>, before: seq<Op>, o: Opening,
                                 after: seq<Op>)
    requires Listing(d) && forall j :: 0 <= j < |after| ==> !after[j].RestartOp?
    requires
      var s := Run(Booted(d, clock, history), before);
      s.waiting > 0 && !s.desk.archive.recoveryNeeded && Open(s.desk, o).1.Some?
    ensures
      var s := Run(Booted(d, clock, history), before);
      var view, end := Open(s.desk, o).1.value, Run(Apply(s, OpenOp(o)), after);
      var due := HeldRows(view.pieces, view.cutoff);
      && |s.views| < |end.views| && end.views[|s.views|].pieces == view.pieces
      && end.views[|s.views|].sent <= due
      && (end.views[|s.views|].at >= |view.pieces| ==> end.views[|s.views|].sent == due)
  {
    hide Sound, Balanced, Open, Run, InRange, Stream, HeldRows;
    var boot := Booted(d, clock, history);
    var s := Run(boot, before);
    BootedIsOrderly(d, clock, history);
    RunIsOrderly(boot, before);
    StepKeepsTheArchive(s, OpenOp(o));
    StepBalances(s, OpenOp(o));
    StepKeepsViewsStable(s, OpenOp(o));
    var t := Apply(s, OpenOp(o));
    RunIsOrderly(t, after);
    RunKeepsTheView(t, after, |s.views|);
    SettledViewIsInRange(s.desk, o);
    var v := Run(t, after).views[|s.views|];
    assert Stable(Run(t, after).desk.archive, v);
    InRangeIsKept(Open(s.desk, o).1.value, v);
    WholeStream(v.pieces, v.cutoff);
  }
}
