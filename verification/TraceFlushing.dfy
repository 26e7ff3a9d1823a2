/** Whole flushes: what each keeps, stores and may remove, and when an archive may trust a new clock. */
module TraceFlushing {
  import opened Options
  import opened TraceClock
  import opened TraceArchiveSpec
  import opened TraceRecovery
  import opened TraceAppending
  import opened TracePruning

  // ---------------------------------------------------------------- recovery and tidy archives

  /** What a recovery does to a disk: the same identities, no new row, each segment as it was or tidier. */
  ghost predicate Recovers(before: map<Hour, File>, after: map<Hour, File>) {
    SameIdsOnDisk(before, after) && OnlyOldRows(before, after) && Tidier(before, after)
  }

  lemma RecoversTransitive(a: map<Hour, File>, b: map<Hour, File>, c: map<Hour, File>)
    requires Recovers(a, b) && Recovers(b, c)
    ensures Recovers(a, c)
  {
  }

  lemma RecoversNothing(files: map<Hour, File>)
    ensures Recovers(files, files)
  {
  }

  lemma IdsShrink(before: map<Hour, File>, after: map<Hour, File>, h: Hour)
    requires OnlyOldRows(before, after) && h in after && h in before
    ensures Ids(after[h].lines, h, None) <= Ids(before[h].lines, h, None)
  {
  }

  lemma TidyIsUnique(lines: seq<Line>, hour: Hour, l: Line, m: Line)
    requires TidyLines(lines, hour) && l in lines && m in lines && l.Whole? && m.Whole? && l.row.id == m.row.id
    ensures l == m
  {
    var i :| 0 <= i < |lines| && lines[i] == l;
    var j :| 0 <= j < |lines| && lines[j] == m;
  }

  lemma TidyRowSurvives(before: map<Hour, File>, after: map<Hour, File>, h: Hour, r: Row)
    requires SameIdsOnDisk(before, after) && OnlyOldRows(before, after) && Tidy(before) && Holds(before, h, r)
    ensures Holds(after, h, r)
  {
    assert Eligible(Whole(r), h, None);
    assert r.id in Ids(before[h].lines, h, None);
    assert OnDisk(before, r.id);
    var g :| g in after && r.id in Ids(after[g].lines, g, None);
    IdsShrink(before, after, g);
    assert g == h;
    var l :| l in after[h].lines && Eligible(l, h, None) && l.row.id == r.id;
    assert l in before[h].lines;
    TidyIsUnique(before[h].lines, h, l, Whole(r));
  }

  /** A tidy archive stays tidy through recovery, and keeps every row. */
  lemma RecoveringKeepsTidy(before: map<Hour, File>, after: map<Hour, File>)
    requires Recovers(before, after) && Tidy(before)
    ensures Tidy(after) && forall cutoff :: Sheds(before, after, cutoff)
  {
    forall h, g | h in after && g in after && h != g
      ensures Ids(after[h].lines, h, None) !! Ids(after[g].lines, g, None)
    {
      IdsShrink(before, after, h);
      IdsShrink(before, after, g);
      assert Ids(before[h].lines, h, None) !! Ids(before[g].lines, g, None);
    }
    forall h, r | Holds(before, h, r) ensures Holds(after, h, r) {
      TidyRowSurvives(before, after, h, r);
    }
  }

  // ---------------------------------------------------------------- judging the clock

  ghost predicate Shaped(a: Archive) {
    Listing(a.disk) && SameKeys(a.index)
  }

  lemma RecoveryRecovers(a: Archive, pass: Pass)
    requires Sound(a)
    ensures
      var (b, ok) := Recover(a, pass);
      && Recovers(a.disk.files, b.disk.files) && Shaped(b) && b.clock == a.clock && b.history == a.history
      && (ok ==> !b.recoveryNeeded && Matches(b) && (!a.clock.uncertain ==> !b.deferred))
      && (!ok ==> b.recoveryNeeded == a.recoveryNeeded)
      && (a.clock.uncertain ==> b.disk == a.disk)
  {
    hide Matches, Clean, SameIdsOnDisk, OnlyOldRows, Tidier, Listing, SameKeys, ScanTo;
    RecoveryKeepsEveryIdentity(a, pass);
    if Recover(a, pass).1 {
      RecoveryIndexesTheDisk(a, pass);
    }
    if a.clock.uncertain {
      UncertainRecoveryTouchesNothing(a, pass);
    }
  }

  /** Judging leaves what recovery leaves; a verdict to act comes with an exact index and a trusted clock. */
  ghost predicate Judges(a: Archive, b: Archive, verdict: Verdict) {
    && Recovers(a.disk.files, b.disk.files) && Shaped(b)
    && (verdict != Broke ==> !b.recoveryNeeded && Matches(b))
    && (verdict.Acts? ==> !b.clock.uncertain)
    && (a.clock.uncertain && verdict == Unresolved ==> b.disk == a.disk)
  }

  lemma ReanchoringJudges(a: Archive, now: int, p: Probed)
    requires Shaped(a) && Matches(a) && !a.recoveryNeeded
    ensures
      var (b, verdict) := Reanchor(a, now, p);
      Judges(a, b, verdict) && verdict != Unresolved
  {
    hide Matches, SameIdsOnDisk, OnlyOldRows, Tidier, Listing, SameKeys, Recover;
    var published := a.(history := Publish(a.history, Epoch(a.clock.wall, Copies(a))));
    var trusted := published.(clock := Reanchored(a.clock, now, p.mono, p.elapsed));
    RecoversNothing(a.disk.files);
    MatchesIsFramed(a, trusted);
    RecoveryRecovers(trusted, p.recovery);
  }

  lemma ShapeIsFramed(a: Archive, b: Archive)
    requires Shaped(a) && b.disk == a.disk && b.index == a.index
    ensures Shaped(b)
  {
  }

  lemma ClockIsJudged(a: Archive, now: int, w: Weather)
    requires Shaped(a) && Matches(a) && !a.recoveryNeeded
    ensures
      var (b, verdict) := JudgeClock(a, now, w);
      Judges(a, b, verdict)
  {
    hide Matches, Recovers, Shaped, Reanchor;
    var checked, p := Checked(a, now, w.mono), w.probe;
    var probed := checked.(clock := checked.clock.(nextProbe := p.mono + FLUSH_INTERVAL));
    RecoversNothing(a.disk.files);
    MatchesIsFramed(a, checked);
    MatchesIsFramed(a, probed);
    ShapeIsFramed(a, checked);
    ShapeIsFramed(a, probed);
    ReanchoringJudges(probed, now, p);
  }

  lemma FlushIsJudged(a: Archive, now: int, w: Weather)
    requires Sound(a)
    ensures
      var (b, verdict) := Judge(a, now, w);
      Judges(a, b, verdict)
  {
    hide Matches, Recovers, Listing, SameKeys, JudgeClock, Recover;
    var (settled, ok) := Settle(a, w.opening, a.recoveryNeeded);
    if a.recoveryNeeded {
      RecoveryRecovers(a, w.opening);
    } else {
      RecoversNothing(a.disk.files);
    }
    if ok {
      ClockIsJudged(settled, now, w);
      var b := JudgeClock(settled, now, w).0;
      RecoversTransitive(a.disk.files, settled.disk.files, b.disk.files);
    }
  }

  // ---------------------------------------------------------------- earning trust in a clock

  /** The archive as it was when the old anchor was given up has been published, under that anchor. */
  ghost predicate Published(a: Archive, b: Archive, files: map<Hour, File>) {
    Epoch(a.clock.wall, files) in b.history && Recovers(a.disk.files, files)
    && (a.clock.uncertain ==> files == a.disk.files)
  }

  lemma CopiesAreTheDisk(a: Archive)
    requires Matches(a)
    ensures Copies(a) == a.disk.files
  {
  }

  lemma {:induction false} ReanchoringPublishes(a: Archive, now: int, p: Probed)
    requires Sound(a) && !a.recoveryNeeded
    ensures
      var (b, verdict) := Reanchor(a, now, p);
      && Epoch(a.clock.wall, a.disk.files) in b.history && a.history <= b.history
      && (!b.clock.attest || b.clock == a.clock || b.clock == a.clock.(uncertain := true, attest := true))
      && (verdict.Acts? ==> verdict.now == now + p.elapsed && b.clock == Reanchored(a.clock, now, p.mono, p.elapsed))
  {
    hide Matches, Recovers, Shaped, Recover;
    CopiesAreTheDisk(a);
    var trusted := a.(history := Publish(a.history, Epoch(a.clock.wall, Copies(a))),
                      clock := Reanchored(a.clock, now, p.mono, p.elapsed));
    MatchesIsFramed(a, trusted);
    assert Sound(trusted);
    RecoveryRecovers(trusted, p.recovery);
  }

  /** What lets a flush act under a clock that had to be attested. */
  ghost predicate Earned(a: Archive, b: Archive, now: int, p: Probed) {
    && p.proof && 0 <= p.elapsed <= PROBE_LIMIT && p.mono >= a.clock.nextProbe
    && b.clock.wall == Some(now + p.elapsed) && b.clock.mono == p.mono + p.elapsed
    && exists files :: Published(a, b, files)
  }

  lemma ClockIsEarned(a: Archive, now: int, w: Weather)
    requires Sound(a) && !a.recoveryNeeded
    ensures
      var (b, verdict) := JudgeClock(a, now, w);
      && a.history <= b.history
      && (verdict.Acts? && CheckTime(a.clock, now, w.mono).sane ==> verdict.now == now && !a.clock.attest)
      && (verdict.Acts? && !CheckTime(a.clock, now, w.mono).sane ==>
            verdict.now == now + w.probe.elapsed && Earned(a, b, now, w.probe))
      && (a.clock.attest && !b.clock.attest ==>
            w.probe.proof && Epoch(a.clock.wall, a.disk.files) in b.history)
  {
    hide Matches, Recovers, Listing, SameKeys, Reanchor;
    var checked, p := Checked(a, now, w.mono), w.probe;
    var probed := checked.(clock := checked.clock.(nextProbe := p.mono + FLUSH_INTERVAL));
    MatchesIsFramed(a, probed);
    RecoversNothing(a.disk.files);
    ReanchoringPublishes(probed, now, p);
    if !CheckTime(a.clock, now, w.mono).sane {
      RejectionKeepsTheAnchor(a.clock, now, w.mono);
      if JudgeClock(a, now, w).1.Acts? {
        assert Published(a, JudgeClock(a, now, w).0, a.disk.files);
      }
    }
  }

  lemma EarnedEarlier(a: Archive, settled: Archive, b: Archive, now: int, p: Probed)
    requires Recovers(a.disk.files, settled.disk.files) && settled.clock == a.clock
    requires a.clock.uncertain ==> settled.disk.files == a.disk.files
    requires Earned(settled, b, now, p)
    ensures Earned(a, b, now, p)
  {
    hide Recovers;
    var files :| Published(settled, b, files);
    RecoversTransitive(a.disk.files, settled.disk.files, files);
    assert Published(a, b, files);
  }

  /**
   * A flush acts only on a time that its anchor bears out within 300 s, or on one that two independent sources have
   * corroborated after every segment was published as it stood; a required attestation ends in no other way.
   */
  lemma TrustIsEarned(a: Archive, now: int, w: Weather)
    requires Sound(a)
    ensures
      var (b, verdict) := Judge(a, now, w);
      && a.history <= b.history
      && (verdict.Acts? ==>
            || (verdict.now == now && !a.clock.attest && Abs(now - Expected(a.clock, now, w.mono)) <= CLOCK_JUMP)
            || (verdict.now == now + w.probe.elapsed && Earned(a, b, now, w.probe)))
      && (a.clock.attest && !b.clock.attest ==> w.probe.proof && exists files :: Published(a, b, files))
  {
    hide Matches, Recovers, Listing, SameKeys, JudgeClock, Recover;
    var (settled, ok) := Settle(a, w.opening, a.recoveryNeeded);
    if a.recoveryNeeded {
      RecoveryRecovers(a, w.opening);
    } else {
      RecoversNothing(a.disk.files);
    }
    if ok {
      ClockIsEarned(settled, now, w);
      var (b, verdict) := JudgeClock(settled, now, w);
      if a.clock.attest && !b.clock.attest {
        assert Published(a, b, settled.disk.files);
      }
      if verdict.Acts? && !CheckTime(a.clock, now, w.mono).sane {
        EarnedEarlier(a, settled, b, now, w.probe);
      }
    }
  }

  // ---------------------------------------------------------------- acting

  /** New rows are due rows of the flush. */
  ghost predicate Adds(before: map<Hour, File>, after: map<Hour, File>, rows: seq<Candidate>, now: int) {
    forall h, r :: Holds(after, h, r) ==> Holds(before, h, r) || Given(rows, r, now)
  }

  /** Within the archive and the flush, an identity names one row. */
  ghost predicate Named(files: map<Hour, File>, rows: seq<Candidate>) {
    && (forall h, r, c :: Holds(files, h, r) && c in rows && r.id == c.row.id ==> r == c.row)
    && (forall c, d :: c in rows && d in rows && c.row.id == d.row.id ==> c.row == d.row)
  }

  ghost predicate StoresDue(files: map<Hour, File>, rows: seq<Candidate>, now: int) {
    forall c :: c in rows && Due(c, now) ==> Holds(files, HourOf(c.row.ts), c.row)
  }

  ghost predicate IdsAreStored(files: map<Hour, File>, rows: seq<Candidate>, now: int) {
    forall c :: c in rows && Due(c, now) ==> OnDisk(files, c.row.id)
  }

  /** Where an identity names one row, a stored identity is that row stored in its own hour. */
  lemma NamesAreRows(before: map<Hour, File>, after: map<Hour, File>, rows: seq<Candidate>, now: int)
    requires Named(before, rows) && Adds(before, after, rows, now) && IdsAreStored(after, rows, now)
    ensures StoresDue(after, rows, now)
  {
    forall c | c in rows && Due(c, now) ensures Holds(after, HourOf(c.row.ts), c.row) {
      assert OnDisk(after, c.row.id);
      var h :| h in after && c.row.id in Ids(after[h].lines, h, None);
      var l :| l in after[h].lines && Eligible(l, h, None) && l.row.id == c.row.id;
      assert Holds(after, h, l.row);
    }
  }

  /** What writing makes of an exactly indexed, undeferred archive. */
  ghost predicate Writes(a: Archive, b: Archive, rows: seq<Candidate>, now: int, ok: bool) {
    && Sound(b) && Tidy(b.disk.files)
    && KeepsRecent(a.disk.files, b.disk.files, now - RETENTION) && Adds(a.disk.files, b.disk.files, rows, now)
    && (ok && Named(a.disk.files, rows) ==> StoresDue(b.disk.files, rows, now))
  }

  lemma GrowingKeepsRecent(before: map<Hour, File>, after: map<Hour, File>, cutoff: int)
    requires Grows(before, after)
    ensures KeepsRecent(before, after, cutoff)
  {
    forall h, r | Holds(before, h, r) ensures Holds(after, h, r) {
      var i :| 0 <= i < |before[h].lines| && before[h].lines[i] == Whole(r);
      assert after[h].lines[i] == Whole(r);
    }
  }

  lemma SheddingAddsNothing(a: map<Hour, File>, b: map<Hour, File>, c: map<Hour, File>, rows: seq<Candidate>, now: int)
    requires Adds(a, b, rows, now) && OnlyOldRows(b, c)
    ensures Adds(a, c, rows, now)
  {
    forall h, r | Holds(c, h, r) ensures Holds(b, h, r) {
    }
  }

  lemma PruningWrites(a: Archive, b: Archive, rows: seq<Candidate>, now: int, sweeps: seq<Sweep>)
    requires Shaped(b) && Matches(b) && !b.deferred
    requires KeepsRecent(a.disk.files, b.disk.files, now - RETENTION) && Adds(a.disk.files, b.disk.files, rows, now)
    requires IdsAreStored(b.disk.files, rows, now)
    ensures Writes(a, Prune(b, now - RETENTION, sweeps), rows, now, true)
  {
    hide Matches, Listing, SameKeys, Adds, Prune, IdsAreStored;
    var c := Prune(b, now - RETENTION, sweeps);
    PruningKeepsRecentRows(b, now - RETENTION, sweeps);
    SheddingAddsNothing(a.disk.files, b.disk.files, c.disk.files, rows, now);
    if Named(a.disk.files, rows) {
      NamesAreRows(a.disk.files, b.disk.files, rows, now);
    }
  }

  lemma BrokenIsSound(a: Archive)
    requires Shaped(a)
    ensures Sound(Broken(a))
  {
  }

  lemma ConfirmedIsSound(a: Archive)
    requires Sound(a)
    ensures Sound(Confirmed(a))
  {
    if !a.recoveryNeeded {
      MatchesIsFramed(a, Confirmed(a));
    }
  }

  lemma WritingWrites(a: Archive, rows: seq<Candidate>, now: int, w: Weather)
    requires Shaped(a) && Matches(a) && !a.deferred && !a.recoveryNeeded
    ensures
      var (b, ok) := Write(a, rows, now, w);
      Writes(a, b, rows, now, ok)
  {
    hide Matches, Listing, SameKeys, Tidy, Append, Prune, Grows, KeepsRecent, StoresDue, Named, Due;
    AppendingStoresWhatIsDue(a, rows, now, w.puts);
    var (appended, fate) := Append(a, rows, now, w.puts);
    GrowingKeepsRecent(a.disk.files, appended.disk.files, now - RETENTION);
    BrokenIsSound(appended);
    if fate == Goes {
      PruningWrites(a, appended, rows, now, w.sweeps);
      BrokenIsSound(Prune(appended, now - RETENTION, w.sweeps));
      ConfirmedIsSound(Prune(appended, now - RETENTION, w.sweeps));
    }
  }

  // ---------------------------------------------------------------- whole flushes

  /** The repair that precedes writing. */
  lemma RepairRecovers(a: Archive, w: Weather)
    requires Shaped(a) && Matches(a) && !a.recoveryNeeded && !a.clock.uncertain
    ensures
      var (b, ok) := Settle(a, w.repair, a.deferred);
      Recovers(a.disk.files, b.disk.files) && Shaped(b) && (ok ==> Matches(b) && !b.deferred && !b.recoveryNeeded)
  {
    hide Matches, Recovers, Listing, SameKeys, Recover;
    RecoversNothing(a.disk.files);
    if a.deferred {
      RecoveryRecovers(a, w.repair);
    }
  }

  /** What acting makes of an archive, however tidy it was. */
  ghost predicate Acted(before: map<Hour, File>, b: Archive, rows: seq<Candidate>, now: int, ok: bool) {
    && Sound(b) && (Tidy(before) || ok ==> Tidy(b.disk.files))
    && (Tidy(before) ==> KeepsRecent(before, b.disk.files, now - RETENTION))
    && Adds(before, b.disk.files, rows, now)
    && (ok && Named(before, rows) ==> StoresDue(b.disk.files, rows, now))
  }

  lemma RecoveringAddsNothing(before: map<Hour, File>, after: map<Hour, File>, rows: seq<Candidate>, now: int)
    requires Recovers(before, after)
    ensures Adds(before, after, rows, now) && (Named(before, rows) ==> Named(after, rows))
  {
    forall h, r | Holds(after, h, r) ensures Holds(before, h, r) {
    }
  }

  lemma RecoveredThenWritten(before: map<Hour, File>, a: Archive, b: Archive, rows: seq<Candidate>, now: int, ok: bool)
    requires Recovers(before, a.disk.files) && Writes(a, b, rows, now, ok)
    ensures Acted(before, b, rows, now, ok)
  {
    hide Recovers, Sound, Tidy, StoresDue, Named;
    RecoveringAddsNothing(before, a.disk.files, rows, now);
    if Tidy(before) {
      RecoveringKeepsTidy(before, a.disk.files);
      assert Sheds(before, a.disk.files, now - RETENTION);
    }
  }

  lemma OnlyRecovered(before: map<Hour, File>, a: Archive, rows: seq<Candidate>, now: int)
    requires Recovers(before, a.disk.files) && Shaped(a)
    ensures Acted(before, Broken(a), rows, now, false)
  {
    hide Recovers, Tidy;
    RecoveringAddsNothing(before, a.disk.files, rows, now);
    BrokenIsSound(a);
    if Tidy(before) {
      RecoveringKeepsTidy(before, a.disk.files);
      assert Sheds(before, a.disk.files, now - RETENTION);
    }
  }

  lemma ActingActs(before: map<Hour, File>, a: Archive, rows: seq<Candidate>, now: int, w: Weather)
    requires Recovers(before, a.disk.files) && Shaped(a) && Matches(a) && !a.recoveryNeeded && !a.clock.uncertain
    ensures
      var (b, ok) := Act(a, rows, now, w);
      Acted(before, b, rows, now, ok)
  {
    hide Recovers, Matches, Listing, SameKeys, Acted, Write, Settle, Writes;
    RepairRecovers(a, w);
    var (repaired, ok) := Settle(a, w.repair, a.deferred);
    RecoversTransitive(before, a.disk.files, repaired.disk.files);
    if ok {
      WritingWrites(repaired, rows, now, w);
      var (b, stored) := Write(repaired, rows, now, w);
      RecoveredThenWritten(before, repaired, b, rows, now, stored);
    } else {
      OnlyRecovered(before, repaired, rows, now);
    }
  }

  /**
   * A flush that acts on a time: whatever fails, it adds only due rows and, to a tidy archive, does no harm: the
   * archive stays tidy and keeps each row of the last 24 hours. If it reports success every due row is on disk in its
   * own hour, and nothing there is repeated, torn apart or misplaced.
   */
  lemma FlushActs(a: Archive, rows: seq<Candidate>, now: int, w: Weather)
    requires Sound(a) && !a.stopping && Judge(a, now, w).1.Acts?
    ensures
      var (b, ok) := Flush(a, rows, now, w);
      Acted(a.disk.files, b, rows, Judge(a, now, w).1.now, ok)
  {
    hide Sound, Recovers, Matches, Listing, SameKeys, Acted, Act, Judge;
    FlushIsJudged(a, now, w);
    var (judged, verdict) := Judge(a, now, w);
    ActingActs(a.disk.files, judged, rows, verdict.now, w);
  }

  /**
   * A flush that does not act, because it failed early or because the clock stays unresolved, neither adds a row nor
   * removes the identity of one; under a clock already in doubt an unresolved flush leaves every byte alone.
   */
  lemma {:induction false} IdleFlushKeepsEveryRow(a: Archive, rows: seq<Candidate>, now: int, w: Weather)
    requires Sound(a) && (a.stopping || !Judge(a, now, w).1.Acts?)
    ensures
      var b := Flush(a, rows, now, w).0;
      && Sound(b) && Recovers(a.disk.files, b.disk.files) && (Tidy(a.disk.files) ==> Tidy(b.disk.files))
      && (a.stopping ==> b == a)
      && (!a.stopping && Judge(a, now, w).1 == Unresolved && a.clock.uncertain ==> b.disk == a.disk)
  {
    hide Recovers, Matches, Listing, SameKeys, Judge, Tidy;
    if a.stopping {
      RecoversNothing(a.disk.files);
    } else {
      FlushIsJudged(a, now, w);
      var (judged, verdict) := Judge(a, now, w);
      BrokenIsSound(judged);
      if Tidy(a.disk.files) {
        RecoveringKeepsTidy(a.disk.files, judged.disk.files);
      }
    }
  }

  /** Every flush, whatever fails in it, leaves a sound archive, and a tidy one tidy. */
  lemma FlushKeepsTheArchive(a: Archive, rows: seq<Candidate>, now: int, w: Weather)
    requires Sound(a)
    ensures Sound(Flush(a, rows, now, w).0)
    ensures Tidy(a.disk.files) ==> Tidy(Flush(a, rows, now, w).0.disk.files)
  {
    hide Sound, Tidy, Flush, Judge, Recovers;
    if !a.stopping && Judge(a, now, w).1.Acts? {
      FlushActs(a, rows, now, w);
    } else {
      IdleFlushKeepsEveryRow(a, rows, now, w);
    }
  }

  // ---------------------------------------------------------------- trust over whole flushes

  ghost predicate SameTrust(a: Archive, b: Archive) {
    b.clock == a.clock && b.history == a.history
  }

  lemma {:induction false} AppendingKeepsTrust(a: Archive, batches: seq<Batch>, k: nat, puts: seq<Put>)
    requires k <= |batches|
    ensures SameTrust(a, AppendTo(a, batches, k, puts).0)
  {
    if k != 0 {
      AppendingKeepsTrust(a, batches, k - 1, puts);
    }
  }

  lemma SweepKeepsTrust(a: Archive, hour: Hour, cutoff: int, sweep: Sweep)
    ensures SameTrust(a, SweepHour(a, hour, cutoff, sweep))
  {
  }

  lemma {:induction false} PassKeepsTrust(a: Archive, listed: seq<Hour>, k: nat, cutoff: int, sweeps: seq<Sweep>)
    requires k <= |listed|
    ensures SameTrust(a, PruneTo(a, listed, k, cutoff, sweeps))
  {
    hide SweepHour;
    if k != 0 {
      PassKeepsTrust(a, listed, k - 1, cutoff, sweeps);
      SweepKeepsTrust(PruneTo(a, listed, k - 1, cutoff, sweeps), listed[k - 1], cutoff, At(sweeps, k - 1, Does(Fine)));
    }
  }

  lemma AdoptingKeepsTrust(a: Archive, s: Scan, ending: Ending)
    ensures SameTrust(a, Adopt(a, s, ending).0)
  {
  }

  lemma WritingKeepsTrust(a: Archive, rows: seq<Candidate>, now: int, w: Weather)
    ensures SameTrust(a, Write(a, rows, now, w).0)
  {
    hide AppendTo, PruneTo, Gather;
    var g := Gather(rows, a.index.committed, now);
    AppendingKeepsTrust(a.(gaps := NoteIf(a.gaps, g.future, DiscardedRecord)), g.batches, |g.batches|, w.puts);
    var appended := Append(a, rows, now, w.puts).0;
    PassKeepsTrust(appended, appended.index.order, |appended.index.order|, now - RETENTION, w.sweeps);
  }

  lemma ActingKeepsTrust(a: Archive, rows: seq<Candidate>, now: int, w: Weather)
    ensures SameTrust(a, Act(a, rows, now, w).0)
  {
    hide Write, ScanTo, Adopt;
    AdoptingKeepsTrust(a, ScanTo(a, |a.disk.dir|, w.repair.ios), w.repair.ending);
    WritingKeepsTrust(Settle(a, w.repair, a.deferred).0, rows, now, w);
  }

  /**
   * Over a whole flush, whatever fails in it: published history only grows, and a required attestation ends only with
   * two corroborating sources and a published copy of the archive as it stood.
   */
  lemma FlushEarnsTrust(a: Archive, rows: seq<Candidate>, now: int, w: Weather)
    requires Sound(a)
    ensures
      var b := Flush(a, rows, now, w).0;
      && a.history <= b.history
      && (a.clock.attest && !b.clock.attest ==> w.probe.proof && exists files :: Published(a, b, files))
  {
    hide Judge, Act, Sound, Recovers;
    if !a.stopping {
      TrustIsEarned(a, now, w);
      var (judged, verdict) := Judge(a, now, w);
      if verdict.Acts? {
        ActingKeepsTrust(judged, rows, verdict.now, w);
      }
      var b := Flush(a, rows, now, w).0;
      assert SameTrust(judged, b);
      if a.clock.attest && !b.clock.attest {
        var files :| Published(a, judged, files);
        assert Published(a, b, files);
      }
    }
  }
}
