/** Gaps are noted before their evidence goes, and stay noted. */
module TraceGaps {
  import opened Options
  import opened TraceClock
  import opened TraceArchiveSpec
  import opened TraceDownloadSpec

  /** What a recovery has dropped, or has put off dropping, is noted. */
  ghost predicate Owns(s: Scan, a: Archive) {
    a.gaps <= s.gaps && (s.files != a.disk.files || s.deferred ==> DiscardedRecord in s.gaps)
  }

  lemma SegmentOwnsUp(s: Scan, a: Archive, hour: Hour, pinned: bool, io: Io)
    requires Owns(s, a)
    ensures Owns(ScanSegment(s, hour, a.clock.uncertain, pinned, io), a)
  {
    hide Keep;
  }

  lemma NothingDropped(a: Archive)
    ensures Owns(Scan(a.disk.files, NOTHING, false, a.gaps, false), a)
  {
  }

  lemma {:induction false} ScanOwnsUp(a: Archive, k: nat, ios: seq<Io>)
    requires k <= |a.disk.dir|
    ensures Owns(ScanTo(a, k, ios), a)
  {
    hide ScanSegment, Owns;
    if k == 0 {
      NothingDropped(a);
    } else {
      ScanOwnsUp(a, k - 1, ios);
      SegmentOwnsUp(ScanTo(a, k - 1, ios), a, a.disk.dir[k - 1], Pinned(a, a.disk.dir[k - 1]), At(ios, k - 1, Fine));
    }
  }

  /** A recovery that changes any segment, or defers a repair, has noted a discarded record, however it ends. */
  lemma RecoveryNotesWhatItDrops(a: Archive, pass: Pass)
    ensures
      var b := Recover(a, pass).0;
      a.gaps <= b.gaps && (b.disk != a.disk || b.deferred ==> DiscardedRecord in b.gaps)
  {
    hide ScanTo;
    ScanOwnsUp(a, |a.disk.dir|, pass.ios);
  }

  // ---------------------------------------------------------------- gaps are sticky

  lemma AppendBatchKeepsGaps(a: Archive, b: Batch, put: Put)
    ensures AppendBatch(a, b, put).0.gaps == a.gaps
  {
  }

  lemma {:induction false} AppendKeepsGaps(a: Archive, batches: seq<Batch>, k: nat, puts: seq<Put>)
    requires k <= |batches|
    ensures AppendTo(a, batches, k, puts).0.gaps == a.gaps
  {
    hide AppendBatch;
    if k != 0 {
      AppendKeepsGaps(a, batches, k - 1, puts);
      AppendBatchKeepsGaps(AppendTo(a, batches, k - 1, puts).0, batches[k - 1], At(puts, k - 1, Wrote));
    }
  }

  lemma SweepKeepsGaps(a: Archive, hour: Hour, cutoff: int, sweep: Sweep)
    ensures a.gaps <= SweepHour(a, hour, cutoff, sweep).gaps
  {
  }

  lemma {:induction false} PassKeepsGaps(a: Archive, listed: seq<Hour>, k: nat, cutoff: int, sweeps: seq<Sweep>)
    requires k <= |listed|
    ensures a.gaps <= PruneTo(a, listed, k, cutoff, sweeps).gaps
  {
    hide SweepHour;
    if k != 0 {
      PassKeepsGaps(a, listed, k - 1, cutoff, sweeps);
      SweepKeepsGaps(PruneTo(a, listed, k - 1, cutoff, sweeps), listed[k - 1], cutoff, At(sweeps, k - 1, Does(Fine)));
    }
  }

  lemma WritingKeepsGaps(a: Archive, rows: seq<Candidate>, now: int, w: Weather)
    ensures
      var b := Write(a, rows, now, w).0;
      a.gaps <= b.gaps && (Gather(rows, a.index.committed, now).future ==> DiscardedRecord in b.gaps)
  {
    hide AppendTo, PruneTo, Gather;
    var g := Gather(rows, a.index.committed, now);
    AppendKeepsGaps(a.(gaps := NoteIf(a.gaps, g.future, DiscardedRecord)), g.batches, |g.batches|, w.puts);
    var appended := Append(a, rows, now, w.puts).0;
    PassKeepsGaps(appended, appended.index.order, |appended.index.order|, now - RETENTION, w.sweeps);
  }

  /** A row from beyond the tolerated future is never silently skipped. */
  lemma {:induction false} FutureRowsAreNoted(rows: seq<Candidate>, committed: set<Identity>, now: int)
    ensures Gather(rows, committed, now).future <==> exists c :: c in rows && c.row.ts > now + CLOCK_JUMP
  {
    if rows != [] {
      var less, c := rows[..|rows| - 1], rows[|rows| - 1];
      FutureRowsAreNoted(less, committed, now);
      assert rows == less + [c];
    }
  }

  lemma ActingKeepsGaps(a: Archive, rows: seq<Candidate>, now: int, w: Weather)
    ensures a.gaps <= Act(a, rows, now, w).0.gaps
  {
    hide Write, Recover;
    RecoveryNotesWhatItDrops(a, w.repair);
    WritingKeepsGaps(Settle(a, w.repair, a.deferred).0, rows, now, w);
  }

  lemma ReanchoringKeepsGaps(a: Archive, now: int, p: Probed)
    ensures a.gaps <= Reanchor(a, now, p).0.gaps
  {
    hide Recover;
    var published := a.(history := Publish(a.history, Epoch(a.clock.wall, Copies(a))));
    RecoveryNotesWhatItDrops(published.(clock := Reanchored(a.clock, now, p.mono, p.elapsed)), p.recovery);
  }

  /** A clock check that fails against an anchor is noted, whatever the flush does next. */
  lemma JudgingNotesTheClock(a: Archive, now: int, w: Weather)
    ensures
      var b := JudgeClock(a, now, w).0;
      a.gaps <= b.gaps && (CheckTime(a.clock, now, w.mono).noted ==> ClockDiscontinuity in b.gaps)
  {
    hide Reanchor;
    var checked := Checked(a, now, w.mono);
    var probed := checked.(clock := checked.clock.(nextProbe := w.probe.mono + FLUSH_INTERVAL));
    ReanchoringKeepsGaps(probed, now, w.probe);
  }

  lemma FlushKeepsGaps(a: Archive, rows: seq<Candidate>, now: int, w: Weather)
    ensures a.gaps <= Flush(a, rows, now, w).0.gaps
  {
    hide Recover, JudgeClock, Act;
    RecoveryNotesWhatItDrops(a, w.opening);
    var settled := Settle(a, w.opening, a.recoveryNeeded).0;
    JudgingNotesTheClock(settled, now, w);
    var (judged, verdict) := Judge(a, now, w);
    if verdict.Acts? {
      ActingKeepsGaps(judged, rows, verdict.now, w);
    }
  }

  lemma StepKeepsGaps(s: System, op: Op)
    requires !op.RestartOp?
    ensures s.desk.archive.gaps <= Apply(s, op).desk.archive.gaps
  {
    hide Flush, Found, Openable;
    if op.FlushOp? {
      FlushKeepsGaps(s.desk.archive, op.rows, op.now, op.weather);
    }
  }

  /** Within one process no step ever forgets a gap. */
  lemma {:induction false} RunKeepsGaps(s: System, ops: seq<Op>)
    requires forall i :: 0 <= i < |ops| ==> !ops[i].RestartOp?
    ensures s.desk.archive.gaps <= Run(s, ops).desk.archive.gaps
  {
    hide Apply;
    if ops != [] {
      RunKeepsGaps(s, ops[..|ops| - 1]);
      StepKeepsGaps(Run(s, ops[..|ops| - 1]), ops[|ops| - 1]);
    }
  }
}
