/** A pinned segment is only ever extended, whatever appends, prunes, recoveries and clock repairs go on. */
module TracePinning {
  import opened Options
  import opened TraceClock
  import opened TraceArchiveSpec
  import opened TraceRecovery
  import opened TraceAppending
  import opened TracePruning
  import opened TraceFlushing

  /** Lines are added at the end, and none at all after an unfinished one. */
  ghost predicate Extends(f: File, g: File) {
    f.lines <= g.lines && (f.torn ==> g == f)
  }

  ghost predicate PinnedGrow(a: Archive, b: Archive) {
    && b.pins == a.pins
    && forall h :: Pinned(a, h) && h in a.disk.files ==> h in b.disk.files && Extends(a.disk.files[h], b.disk.files[h])
  }

  lemma PinnedGrowTransitive(a: Archive, b: Archive, c: Archive)
    requires PinnedGrow(a, b) && PinnedGrow(b, c)
    ensures PinnedGrow(a, c)
  {
  }

  lemma PinnedStay(a: Archive, b: Archive)
    requires b.pins == a.pins && b.disk.files == a.disk.files
    ensures PinnedGrow(a, b)
  {
  }

  lemma SegmentKeepsPinned(s: Scan, hour: Hour, uncertain: bool, pinned: bool, io: Io)
    ensures
      var s' := ScanSegment(s, hour, uncertain, pinned, io);
      && (forall h :: h in s.files ==> h in s'.files && (h != hour ==> s'.files[h] == s.files[h]))
      && (pinned && hour in s.files ==> s'.files == s.files)
  {
  }

  ghost predicate PinnedAlike(a: Archive, files: map<Hour, File>) {
    forall h :: Pinned(a, h) && h in a.disk.files ==> h in files && files[h] == a.disk.files[h]
  }

  lemma SegmentKeepsKeys(s: Scan, hour: Hour, uncertain: bool, pinned: bool, io: Io)
    requires hour in s.files
    ensures ScanSegment(s, hour, uncertain, pinned, io).files.Keys == s.files.Keys
  {
  }

  lemma {:induction false} ScanKeepsPinned(a: Archive, k: nat, ios: seq<Io>)
    requires Listing(a.disk) && k <= |a.disk.dir|
    ensures ScanTo(a, k, ios).files.Keys == a.disk.files.Keys && PinnedAlike(a, ScanTo(a, k, ios).files)
  {
    hide ScanSegment;
    if k != 0 {
      ScanKeepsPinned(a, k - 1, ios);
      var s, hour := ScanTo(a, k - 1, ios), a.disk.dir[k - 1];
      SegmentKeepsPinned(s, hour, a.clock.uncertain, Pinned(a, hour), At(ios, k - 1, Fine));
      SegmentKeepsKeys(s, hour, a.clock.uncertain, Pinned(a, hour), At(ios, k - 1, Fine));
    }
  }

  lemma AdoptingKeepsPinned(a: Archive, s: Scan, ending: Ending)
    requires PinnedAlike(a, s.files)
    ensures PinnedGrow(a, Adopt(a, s, ending).0)
  {
    assert Adopt(a, s, ending).0.disk.files == s.files;
  }

  lemma RecoveryKeepsPinned(a: Archive, pass: Pass)
    requires Listing(a.disk)
    ensures PinnedGrow(a, Recover(a, pass).0)
  {
    hide ScanTo, Listing, Adopt, PinnedGrow, PinnedAlike;
    ScanKeepsPinned(a, |a.disk.dir|, pass.ios);
    AdoptingKeepsPinned(a, ScanTo(a, |a.disk.dir|, pass.ios), pass.ending);
  }

  lemma {:induction false} AppendKeepsPins(a: Archive, batches: seq<Batch>, k: nat, puts: seq<Put>)
    requires k <= |batches|
    ensures AppendTo(a, batches, k, puts).0.pins == a.pins
  {
    if k != 0 {
      AppendKeepsPins(a, batches, k - 1, puts);
    }
  }

  lemma GrowingIsExtending(a: Archive, b: Archive)
    requires Clean(a.disk.files) && Grows(a.disk.files, b.disk.files) && b.pins == a.pins
    ensures PinnedGrow(a, b)
  {
  }

  lemma AppendingExtendsPinned(a: Archive, rows: seq<Candidate>, now: int, puts: seq<Put>)
    requires Listing(a.disk) && Matches(a) && !a.deferred
    ensures PinnedGrow(a, Append(a, rows, now, puts).0)
  {
    hide Matches, Listing, SameKeys, Tidy, Grows, Holds;
    AppendingStoresWhatIsDue(a, rows, now, puts);
    var g := Gather(rows, a.index.committed, now);
    AppendKeepsPins(a.(gaps := NoteIf(a.gaps, g.future, DiscardedRecord)), g.batches, |g.batches|, puts);
    ExactIsClean(a);
    GrowingIsExtending(a, Append(a, rows, now, puts).0);
  }

  lemma TrimKeepsPinned(a: Archive, hour: Hour, cutoff: int, io: Io)
    requires !Pinned(a, hour)
    ensures PinnedGrow(a, Trim(a, hour, cutoff, io))
  {
    hide Replace;
  }

  lemma UnlinkKeepsPinned(a: Archive, hour: Hour, io: Io)
    requires !Pinned(a, hour)
    ensures PinnedGrow(a, Unlink(a, hour, io))
  {
  }

  lemma PinnedBroken(a: Archive, b: Archive)
    requires PinnedGrow(a, b)
    ensures PinnedGrow(a, Broken(b)) && PinnedGrow(a, Confirmed(b))
  {
  }

  lemma SweepKeepsPinned(a: Archive, hour: Hour, cutoff: int, sweep: Sweep)
    ensures PinnedGrow(a, SweepHour(a, hour, cutoff, sweep))
  {
    hide Trim, Unlink, PinnedGrow;
    PinnedStay(a, a);
    PinnedBroken(a, a);
    PinnedStay(a, a.(stopping := true));
    if !Pinned(a, hour) && sweep.Does? {
      TrimKeepsPinned(a, hour, cutoff, sweep.io);
      UnlinkKeepsPinned(a, hour, sweep.io);
    }
  }

  lemma {:induction false} PassKeepsPinned(a: Archive, listed: seq<Hour>, k: nat, cutoff: int, sweeps: seq<Sweep>)
    requires k <= |listed|
    ensures PinnedGrow(a, PruneTo(a, listed, k, cutoff, sweeps))
  {
    hide SweepHour, PinnedGrow;
    if k == 0 {
      PinnedStay(a, a);
    } else {
      PassKeepsPinned(a, listed, k - 1, cutoff, sweeps);
      var before := PruneTo(a, listed, k - 1, cutoff, sweeps);
      SweepKeepsPinned(before, listed[k - 1], cutoff, At(sweeps, k - 1, Does(Fine)));
      PinnedGrowTransitive(a, before, PruneTo(a, listed, k, cutoff, sweeps));
    }
  }

  lemma ReanchoringKeepsPinned(a: Archive, now: int, p: Probed)
    requires Listing(a.disk)
    ensures PinnedGrow(a, Reanchor(a, now, p).0)
  {
    hide Recover, Listing, PinnedGrow;
    var published := a.(history := Publish(a.history, Epoch(a.clock.wall, Copies(a))));
    var trusted := published.(clock := Reanchored(a.clock, now, p.mono, p.elapsed));
    PinnedStay(a, trusted);
    PinnedStay(a, Reanchor(a, now, p.(publication := FailsAfter)).0);
    PinnedStay(a, Reanchor(a, now, p.(saved := false)).0);
    RecoveryKeepsPinned(trusted, p.recovery);
    PinnedGrowTransitive(a, trusted, Recover(trusted, p.recovery).0);
  }

  lemma ClockKeepsPinned(a: Archive, now: int, w: Weather)
    requires Listing(a.disk)
    ensures PinnedGrow(a, JudgeClock(a, now, w).0)
  {
    hide Reanchor, Listing, PinnedGrow;
    var checked := Checked(a, now, w.mono);
    var probed := checked.(clock := checked.clock.(nextProbe := w.probe.mono + FLUSH_INTERVAL));
    PinnedStay(a, checked);
    PinnedStay(a, probed);
    ReanchoringKeepsPinned(probed, now, w.probe);
    PinnedGrowTransitive(a, probed, Reanchor(probed, now, w.probe).0);
  }

  lemma JudgingKeepsPinned(a: Archive, now: int, w: Weather)
    requires Sound(a)
    ensures PinnedGrow(a, Judge(a, now, w).0)
  {
    hide Recover, JudgeClock, Listing, SameKeys, Matches, Recovers, PinnedGrow;
    PinnedStay(a, a);
    var (settled, ok) := Settle(a, w.opening, a.recoveryNeeded);
    if a.recoveryNeeded {
      RecoveryKeepsPinned(a, w.opening);
      RecoveryRecovers(a, w.opening);
    }
    if ok {
      ClockKeepsPinned(settled, now, w);
      PinnedGrowTransitive(a, settled, JudgeClock(settled, now, w).0);
    }
  }

  lemma WritingKeepsPinned(a: Archive, rows: seq<Candidate>, now: int, w: Weather)
    requires Listing(a.disk) && Matches(a) && !a.deferred
    ensures PinnedGrow(a, Write(a, rows, now, w).0)
  {
    hide Append, Listing, Matches, Recovers, PinnedGrow;
    AppendingExtendsPinned(a, rows, now, w.puts);
    var (appended, fate) := Append(a, rows, now, w.puts);
    var order := appended.index.order;
    PassKeepsPinned(appended, order, |order|, now - RETENTION, w.sweeps);
    var pruned := Prune(appended, now - RETENTION, w.sweeps);
    PinnedGrowTransitive(a, appended, pruned);
    PinnedBroken(a, appended);
    PinnedBroken(a, pruned);
  }

  lemma ActingKeepsPinned(a: Archive, rows: seq<Candidate>, now: int, w: Weather)
    requires Shaped(a) && Matches(a) && !a.recoveryNeeded && !a.clock.uncertain
    ensures PinnedGrow(a, Act(a, rows, now, w).0)
  {
    hide Recover, Listing, SameKeys, Matches, Recovers, PinnedGrow, Write;
    PinnedStay(a, a);
    RepairRecovers(a, w);
    var (repaired, ok) := Settle(a, w.repair, a.deferred);
    if a.deferred {
      RecoveryKeepsPinned(a, w.repair);
    }
    if ok {
      WritingKeepsPinned(repaired, rows, now, w);
      PinnedGrowTransitive(a, repaired, Write(repaired, rows, now, w).0);
    } else {
      PinnedBroken(a, repaired);
    }
  }

  /** Whatever one flush does, a pinned segment is at most extended, and not past an unfinished line. */
  lemma {:induction false} FlushOnlyExtendsPinned(a: Archive, rows: seq<Candidate>, now: int, w: Weather)
    requires Sound(a)
    ensures PinnedGrow(a, Flush(a, rows, now, w).0)
  {
    hide Judge, Act, Listing, SameKeys, Matches, Recovers, PinnedGrow;
    PinnedStay(a, a);
    if !a.stopping {
      FlushIsJudged(a, now, w);
      JudgingKeepsPinned(a, now, w);
      var (judged, verdict) := Judge(a, now, w);
      PinnedBroken(a, judged);
      if verdict.Acts? {
        ActingKeepsPinned(judged, rows, verdict.now, w);
        PinnedGrowTransitive(a, judged, Act(judged, rows, verdict.now, w).0);
      }
    }
  }
}
