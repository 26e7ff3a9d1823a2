/** What the archive tells the event loop is durable has been on disk. */
module TraceConfirmation {
  import opened Options
  import opened TraceClock
  import opened TraceArchiveSpec
  import opened TraceRecovery
  import opened TraceAppending
  import opened TracePruning
  import opened TraceFlushing

  /** What is published was published before, or is on this disk. */
  ghost predicate ConfirmsOnly(was: set<Identity>, files: map<Hour, File>, confirmed: set<Identity>) {
    forall id :: id in confirmed ==> id in was || OnDisk(files, id)
  }

  /** A finished scan commits only what the disk held when it began. */
  lemma ScanCommitsTheDisk(s: Scan, a: Archive)
    requires Listing(a.disk) && !s.failed && Surviving(s, a, |a.disk.dir|)
    ensures ConfirmsOnly({}, a.disk.files, s.index.committed)
  {
    hide ScanInv, OnlyOldRows, Tidier, Listing, OnDisk, Indexes, Exact;
    FinishedScanMatches(s, a);
  }

  lemma RecoveringConfirms(a: Archive, pass: Pass)
    requires Sound(a)
    ensures ConfirmsOnly(a.confirmed, a.disk.files, Recover(a, pass).0.confirmed)
  {
    hide ScanTo, Surviving, Matches, SameKeys, Listing, OnDisk;
    var s := ScanTo(a, |a.disk.dir|, pass.ios);
    ScanSurvives(a, |a.disk.dir|, pass.ios);
    if !s.failed {
      ScanCommitsTheDisk(s, a);
    }
  }

  lemma SettlingConfirms(a: Archive, pass: Pass, needed: bool)
    requires Sound(a)
    ensures ConfirmsOnly(a.confirmed, a.disk.files, Settle(a, pass, needed).0.confirmed)
  {
    hide Recover, OnDisk, Sound;
    if needed {
      RecoveringConfirms(a, pass);
    }
  }

  /** A second publication over the same identities confirms nothing else. */
  lemma ConfirmsTransitive(was: set<Identity>, a: map<Hour, File>, between: set<Identity>, b: map<Hour, File>,
                           confirmed: set<Identity>)
    requires ConfirmsOnly(was, a, between) && ConfirmsOnly(between, b, confirmed)
    requires forall id :: OnDisk(b, id) ==> OnDisk(a, id)
    ensures ConfirmsOnly(was, a, confirmed)
  {
  }

  lemma ReanchoringConfirms(a: Archive, now: int, p: Probed)
    requires Sound(a) && !a.recoveryNeeded
    ensures ConfirmsOnly(a.confirmed, a.disk.files, Reanchor(a, now, p).0.confirmed)
  {
    hide Recover, OnDisk, Matches, Listing, SameKeys;
    var trusted := a.(history := Publish(a.history, Epoch(a.clock.wall, Copies(a))),
                      clock := Reanchored(a.clock, now, p.mono, p.elapsed));
    MatchesIsFramed(a, trusted);
    RecoveringConfirms(trusted, p.recovery);
  }

  lemma ClockConfirms(a: Archive, now: int, w: Weather)
    requires Sound(a) && !a.recoveryNeeded
    ensures ConfirmsOnly(a.confirmed, a.disk.files, JudgeClock(a, now, w).0.confirmed)
  {
    hide Reanchor, OnDisk, Matches, Listing, SameKeys;
    var checked, p := Checked(a, now, w.mono), w.probe;
    var probed := checked.(clock := checked.clock.(nextProbe := p.mono + FLUSH_INTERVAL));
    MatchesIsFramed(a, probed);
    ReanchoringConfirms(probed, now, p);
  }

  lemma RecoversSameIds(before: map<Hour, File>, after: map<Hour, File>)
    requires Recovers(before, after)
    ensures forall id :: OnDisk(after, id) <==> OnDisk(before, id)
  {
  }

  lemma JudgingConfirms(a: Archive, now: int, w: Weather)
    requires Sound(a)
    ensures ConfirmsOnly(a.confirmed, a.disk.files, Judge(a, now, w).0.confirmed)
  {
    hide Recover, JudgeClock, OnDisk, Recovers, Matches, Listing, SameKeys, ConfirmsOnly;
    SettlingConfirms(a, w.opening, a.recoveryNeeded);
    var (settled, ok) := Settle(a, w.opening, a.recoveryNeeded);
    if ok {
      if a.recoveryNeeded {
        RecoveryRecovers(a, w.opening);
      } else {
        RecoversNothing(a.disk.files);
      }
      RecoversSameIds(a.disk.files, settled.disk.files);
      ClockConfirms(settled, now, w);
      ConfirmsTransitive(a.confirmed, a.disk.files, settled.confirmed, settled.disk.files,
                         JudgeClock(settled, now, w).0.confirmed);
    }
  }

  // ---------------------------------------------------------------- appending

  lemma GrowingKeepsIds(before: map<Hour, File>, after: map<Hour, File>)
    requires Grows(before, after)
    ensures forall id :: OnDisk(before, id) ==> OnDisk(after, id)
  {
    forall id | OnDisk(before, id) ensures OnDisk(after, id) {
      var h :| h in before && id in Ids(before[h].lines, h, None);
      var l :| l in before[h].lines && Eligible(l, h, None) && l.row.id == id;
      assert l in after[h].lines;
      assert id in Ids(after[h].lines, h, None);
    }
  }

  lemma GrownConfirms(was: set<Identity>, before: map<Hour, File>, after: map<Hour, File>, confirmed: set<Identity>)
    requires ConfirmsOnly(was, before, confirmed) && Grows(before, after)
    ensures ConfirmsOnly(was, after, confirmed)
  {
    hide OnDisk, Grows;
    GrowingKeepsIds(before, after);
  }

  lemma BatchConfirms(a: Archive, b: Batch, put: Put)
    requires Listing(a.disk) && Matches(a) && !a.deferred && Fit(b) && IdsOf(b.rows) !! a.index.committed
    ensures
      var a' := AppendBatch(a, b, put).0;
      ConfirmsOnly(a.confirmed, a'.disk.files, a'.confirmed) && Grows(a.disk.files, a'.disk.files)
  {
    hide Listing, Tidy, Indexes, Exact, OnDisk, Stored, Entered, Grows;
    BatchIsAppended(a, b, put);
  }

  lemma NothingConfirmed(was: set<Identity>, files: map<Hour, File>)
    ensures ConfirmsOnly(was, files, was)
  {
  }

  lemma {:induction false} BatchesConfirm(a: Archive, batches: seq<Batch>, k: nat, puts: seq<Put>)
    requires Listing(a.disk) && Matches(a) && !a.deferred && k <= |batches|
    requires WellBatched(batches) && BatchIds(batches) !! a.index.committed
    ensures
      var b := AppendTo(a, batches, k, puts).0;
      ConfirmsOnly(a.confirmed, b.disk.files, b.confirmed)
  {
    hide Matches, Listing, Tidy, SameKeys, OnDisk, AppendBatch, Grows, ConfirmsOnly;
    if k == 0 {
      NothingConfirmed(a.confirmed, a.disk.files);
    } else {
      BatchesConfirm(a, batches, k - 1, puts);
      BatchesAreAppended(a, batches, k - 1, puts);
      var (before, fate) := AppendTo(a, batches, k - 1, puts);
      if fate == Goes && !before.stopping {
        IdsOfTheFirst(batches, k - 1);
        BatchConfirms(before, batches[k - 1], At(puts, k - 1, Wrote));
        var after := AppendBatch(before, batches[k - 1], At(puts, k - 1, Wrote)).0;
        GrownConfirms(a.confirmed, before.disk.files, after.disk.files, before.confirmed);
        ConfirmsTransitive(a.confirmed, after.disk.files, before.confirmed, after.disk.files, after.confirmed);
      }
    }
  }

  lemma AppendingConfirms(a: Archive, rows: seq<Candidate>, now: int, puts: seq<Put>)
    requires Listing(a.disk) && Matches(a) && !a.deferred
    ensures
      var b := Append(a, rows, now, puts).0;
      ConfirmsOnly(a.confirmed, b.disk.files, b.confirmed)
  {
    hide Matches, Listing, OnDisk, AppendTo, ConfirmsOnly, WellBatched, BatchIds, Gather;
    var g := Gather(rows, a.index.committed, now);
    var noted := a.(gaps := NoteIf(a.gaps, g.future, DiscardedRecord));
    GatheringTakesWhatIsDue(rows, a.index.committed, now);
    MatchesIsFramed(a, noted);
    BatchesConfirm(noted, g.batches, |g.batches|, puts);
  }

  // ---------------------------------------------------------------- writing and whole flushes

  lemma SweepCommitsNothing(a: Archive, hour: Hour, cutoff: int, sweep: Sweep)
    ensures
      var b := SweepHour(a, hour, cutoff, sweep);
      b.index.committed <= a.index.committed && b.confirmed == a.confirmed
  {
  }

  lemma {:induction false} PassCommitsNothing(a: Archive, listed: seq<Hour>, k: nat, cutoff: int, sweeps: seq<Sweep>)
    requires k <= |listed|
    ensures
      var b := PruneTo(a, listed, k, cutoff, sweeps);
      b.index.committed <= a.index.committed && b.confirmed == a.confirmed
  {
    hide SweepHour;
    if k != 0 {
      PassCommitsNothing(a, listed, k - 1, cutoff, sweeps);
      SweepCommitsNothing(PruneTo(a, listed, k - 1, cutoff, sweeps), listed[k - 1], cutoff,
                          At(sweeps, k - 1, Does(Fine)));
    }
  }

  /** Before pruning, or after it, everything published is on the disk that the appends left. */
  lemma WritingConfirmsAppended(a: Archive, rows: seq<Candidate>, now: int, w: Weather)
    requires Listing(a.disk) && Matches(a) && !a.deferred
    ensures ConfirmsOnly(a.confirmed, Append(a, rows, now, w.puts).0.disk.files, Write(a, rows, now, w).0.confirmed)
  {
    hide Listing, Indexes, Exact, OnDisk, Append, PruneTo;
    AppendingConfirms(a, rows, now, w.puts);
    AppendingStoresWhatIsDue(a, rows, now, w.puts);
    var appended := Append(a, rows, now, w.puts).0;
    PassCommitsNothing(appended, appended.index.order, |appended.index.order|, now - RETENTION, w.sweeps);
  }

  lemma GivenIsRecent(rows: seq<Candidate>, r: Row, now: int)
    requires Given(rows, r, now)
    ensures r.ts >= now - RETENTION
  {
  }

  /** A row that the appends wrote is too recent for the prune that follows. */
  lemma AppendedStays(a: Archive, rows: seq<Candidate>, now: int, w: Weather, id: Identity)
    requires Listing(a.disk) && Matches(a) && !a.deferred
    requires OnDisk(Append(a, rows, now, w.puts).0.disk.files, id)
    ensures OnDisk(a.disk.files, id) || OnDisk(Write(a, rows, now, w).0.disk.files, id)
  {
    hide Listing, Matches, Append, Prune, Due;
    AppendingStoresWhatIsDue(a, rows, now, w.puts);
    var (appended, fate) := Append(a, rows, now, w.puts);
    if fate == Goes && !OnDisk(a.disk.files, id) {
      PruningKeepsRecentRows(appended, now - RETENTION, w.sweeps);
      var h :| h in appended.disk.files && id in Ids(appended.disk.files[h].lines, h, None);
      var l :| l in appended.disk.files[h].lines && Eligible(l, h, None) && l.row.id == id;
      assert Holds(appended.disk.files, h, l.row);
      if !Holds(a.disk.files, h, l.row) {
        GivenIsRecent(rows, l.row, now);
        var pruned := Prune(appended, now - RETENTION, w.sweeps).disk.files;
        assert Holds(pruned, h, l.row);
        assert id in Ids(pruned[h].lines, h, None);
      }
    }
  }

  /** What is published after a step was published before it, or is on the disk before or after it. */
  ghost predicate Confirms(a: Archive, b: Archive) {
    forall id :: id in b.confirmed ==> id in a.confirmed || OnDisk(a.disk.files, id) || OnDisk(b.disk.files, id)
  }

  lemma WritingConfirms(a: Archive, rows: seq<Candidate>, now: int, w: Weather)
    requires Listing(a.disk) && Matches(a) && !a.deferred
    ensures Confirms(a, Write(a, rows, now, w).0)
  {
    hide Listing, Matches, OnDisk, Append, Write;
    WritingConfirmsAppended(a, rows, now, w);
    forall id | OnDisk(Append(a, rows, now, w.puts).0.disk.files, id)
      ensures OnDisk(a.disk.files, id) || OnDisk(Write(a, rows, now, w).0.disk.files, id)
    {
      AppendedStays(a, rows, now, w, id);
    }
  }

  lemma ConfirmedEarlier(a: Archive, m: Archive, b: Archive)
    requires ConfirmsOnly(a.confirmed, a.disk.files, m.confirmed) && Recovers(a.disk.files, m.disk.files)
    requires Confirms(m, b)
    ensures Confirms(a, b)
  {
    hide OnDisk, Recovers;
    RecoversSameIds(a.disk.files, m.disk.files);
  }

  lemma OnlyEarlier(a: Archive, b: Archive)
    requires ConfirmsOnly(a.confirmed, a.disk.files, b.confirmed)
    ensures Confirms(a, b)
  {
  }

  lemma ActingConfirms(a: Archive, rows: seq<Candidate>, now: int, w: Weather)
    requires Shaped(a) && Matches(a) && !a.recoveryNeeded && !a.clock.uncertain
    ensures Confirms(a, Act(a, rows, now, w).0)
  {
    hide Listing, SameKeys, Matches, OnDisk, Write, Settle, Recovers, Confirms, ConfirmsOnly;
    SettlingConfirms(a, w.repair, a.deferred);
    RepairRecovers(a, w);
    var (repaired, ok) := Settle(a, w.repair, a.deferred);
    if ok {
      WritingConfirms(repaired, rows, now, w);
      ConfirmedEarlier(a, repaired, Write(repaired, rows, now, w).0);
    } else {
      OnlyEarlier(a, Broken(repaired));
    }
  }

  /**
   * Over a whole flush, whatever fails in it: an identity that the event loop may take for durable afterwards was
   * published before, or was on disk when the flush began, or is on disk now that it has ended.
   */
  lemma FlushConfirms(a: Archive, rows: seq<Candidate>, now: int, w: Weather)
    requires Sound(a)
    ensures Confirms(a, Flush(a, rows, now, w).0)
  {
    hide Sound, Judge, Act, Recovers, Matches, Listing, SameKeys, OnDisk, Confirms, ConfirmsOnly;
    NothingConfirmed(a.confirmed, a.disk.files);
    OnlyEarlier(a, a);
    if !a.stopping {
      JudgingConfirms(a, now, w);
      FlushIsJudged(a, now, w);
      var (judged, verdict) := Judge(a, now, w);
      OnlyEarlier(a, judged);
      OnlyEarlier(a, Broken(judged));
      if verdict.Acts? {
        ActingConfirms(judged, rows, verdict.now, w);
        ConfirmedEarlier(a, judged, Act(judged, rows, verdict.now, w).0);
      }
    }
  }
}
