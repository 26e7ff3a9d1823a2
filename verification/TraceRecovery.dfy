/** Recovery loses no identity, and under a trusted clock leaves a tidy, exactly indexed archive. */
module TraceRecovery {
  import opened Options
  import opened TraceClock
  import opened TraceArchiveSpec

  // ---------------------------------------------------------------- the contents of a segment

  /** The identities of the eligible rows of a segment. */
  function Ids(lines: seq<Line>, hour: Hour, cutoff: Option<int>): set<Identity> {
    set l | l in lines && Eligible(l, hour, cutoff) :: l.row.id
  }

  ghost predicate Distinct(rows: seq<Row>) {
    forall i, j :: 0 <= i < j < |rows| ==> rows[i].id != rows[j].id
  }

  /** Nothing but complete rows in their own hour, each identity once. */
  ghost predicate TidyLines(lines: seq<Line>, hour: Hour) {
    && (forall i :: 0 <= i < |lines| ==> Eligible(lines[i], hour, None))
    && (forall i, j :: 0 <= i < j < |lines| ==> lines[i].row.id != lines[j].row.id)
  }

  ghost predicate RowsOf(rows: seq<Row>, lines: seq<Line>, hour: Hour, cutoff: Option<int>) {
    forall i :: 0 <= i < |rows| ==> Whole(rows[i]) in lines && Eligible(Whole(rows[i]), hour, cutoff)
  }

  lemma IdsOfLonger(lines: seq<Line>, line: Line, hour: Hour, cutoff: Option<int>)
    ensures
      Ids(lines + [line], hour, cutoff) ==
      Ids(lines, hour, cutoff) + if Eligible(line, hour, cutoff) then {line.row.id} else {}
  {
    var longer := lines + [line];
    assert forall l :: l in longer <==> l in lines || l == line;
  }

  lemma IdsOfMore(rows: seq<Row>, row: Row)
    ensures IdsOf(rows + [row]) == IdsOf(rows) + {row.id}
  {
    assert forall r :: r in rows + [row] <==> r in rows || r == row;
  }

  /** What a pass keeps: exactly the eligible identities that are not excluded, each once, in rows of the segment. */
  lemma {:induction false} KeepMeans(lines: seq<Line>, hour: Hour, cutoff: Option<int>, excluded: set<Identity>)
    ensures
      var kept := Keep(lines, hour, cutoff, excluded);
      && IdsOf(kept) == Ids(lines, hour, cutoff) - excluded
      && Distinct(kept) && RowsOf(kept, lines, hour, cutoff) && |kept| <= |lines|
  {
    if lines != [] {
      var prefix, line := lines[..|lines| - 1], lines[|lines| - 1];
      KeepMeans(prefix, hour, cutoff, excluded);
      IdsOfLonger(prefix, line, hour, cutoff);
      assert prefix + [line] == lines;
      var seen := Keep(prefix, hour, cutoff, excluded);
      if Eligible(line, hour, cutoff) && line.row.id !in excluded && line.row.id !in IdsOf(seen) {
        IdsOfMore(seen, line.row);
        assert forall i :: 0 <= i < |seen| ==> seen[i].id in IdsOf(seen);
      }
    }
  }

  lemma TidyLonger(lines: seq<Line>, line: Line, hour: Hour)
    ensures
      TidyLines(lines + [line], hour) <==>
      TidyLines(lines, hour) && Eligible(line, hour, None) && line.row.id !in Ids(lines, hour, None)
  {
    var longer := lines + [line];
    if TidyLines(longer, hour) {
      assert longer[|lines|] == line;
      assert forall i :: 0 <= i < |lines| ==> longer[i] == lines[i];
    } else if TidyLines(lines, hour) && Eligible(line, hour, None) {
      assert forall i :: 0 <= i < |lines| ==> lines[i] in lines;
    }
  }

  /** A pass keeps every line of a segment exactly when the segment is tidy and free of excluded identities. */
  lemma {:induction false} KeepsEverything(lines: seq<Line>, hour: Hour, excluded: set<Identity>)
    ensures
      var kept := Keep(lines, hour, None, excluded);
      && (|kept| == |lines| <==> TidyLines(lines, hour) && Ids(lines, hour, None) !! excluded)
      && (|kept| == |lines| ==> LinesOf(kept) == lines)
  {
    if lines != [] {
      var prefix, line := lines[..|lines| - 1], lines[|lines| - 1];
      KeepsEverything(prefix, hour, excluded);
      KeepMeans(prefix, hour, None, excluded);
      IdsOfLonger(prefix, line, hour, None);
      assert prefix + [line] == lines;
      var seen := Keep(prefix, hour, None, excluded);
      TidyLonger(prefix, line, hour);
      assert line.Whole? ==> LinesOf(seen + [line.row]) == LinesOf(seen) + [line];
    }
  }

  /** The lines of distinct rows of one hour are tidy, and carry exactly their identities. */
  lemma LinesAreTidy(rows: seq<Row>, lines: seq<Line>, hour: Hour, cutoff: Option<int>)
    requires Distinct(rows) && RowsOf(rows, lines, hour, cutoff)
    ensures TidyLines(LinesOf(rows), hour) && Ids(LinesOf(rows), hour, None) == IdsOf(rows)
    ensures Garbage !in LinesOf(rows)
  {
    var written := LinesOf(rows);
    assert forall i :: 0 <= i < |rows| ==> written[i] == Whole(rows[i]);
    forall id | id in IdsOf(rows) ensures id in Ids(written, hour, None) {
      var r :| r in rows && r.id == id;
      assert Whole(r) in written && Eligible(Whole(r), hour, None);
    }
  }

  // ---------------------------------------------------------------- the archive's contents and its index

  ghost predicate Lists(order: seq<Hour>, keys: set<Hour>) {
    && (forall h :: h in order <==> h in keys)
    && (forall i, j :: 0 <= i < j < |order| ==> order[i] != order[j])
  }

  ghost predicate Sorted(dir: seq<Hour>) {
    forall i, j :: 0 <= i < j < |dir| ==> dir[i].number < dir[j].number
  }

  ghost predicate Listing(d: Disk) {
    Sorted(d.dir) && Lists(d.dir, d.files.Keys)
  }

  ghost predicate OnDisk(files: map<Hour, File>, id: Identity) {
    exists h :: h in files && id in Ids(files[h].lines, h, None)
  }

  ghost predicate Apart(files: map<Hour, File>) {
    forall h, g {:trigger Ids(files[h].lines, h, None), Ids(files[g].lines, g, None)} ::
      h in files && g in files && h != g ==> Ids(files[h].lines, h, None) !! Ids(files[g].lines, g, None)
  }

  /** Every line of the archive is a complete row in its own hour, and no identity appears twice in it. */
  ghost predicate Tidy(files: map<Hour, File>) {
    (forall h :: h in files ==> TidyLines(files[h].lines, h)) && Apart(files)
  }

  ghost predicate Clean(files: map<Hour, File>) {
    Tidy(files) && forall h :: h in files ==> !files[h].torn
  }

  ghost predicate Owned(ids: map<Hour, set<Identity>>, id: Identity) {
    exists h :: h in ids && id in ids[h]
  }

  ghost predicate SameKeys(x: Index) {
    x.lengths.Keys == x.ids.Keys && Lists(x.order, x.lengths.Keys)
  }

  ghost predicate DisjointIds(ids: map<Hour, set<Identity>>) {
    forall h, g {:trigger ids[h], ids[g]} :: h in ids && g in ids && h != g ==> ids[h] !! ids[g]
  }

  ghost predicate Describes(x: Index, files: map<Hour, File>) {
    forall h :: h in x.ids && h in x.lengths ==>
      h in files && x.lengths[h] == Size(files[h]) && x.ids[h] <= Ids(files[h].lines, h, None)
  }

  /** The committed identities are the disjoint union of those of the segments. */
  ghost predicate Union(x: Index) {
    DisjointIds(x.ids) && forall id :: id in x.committed <==> Owned(x.ids, id)
  }

  ghost predicate Indexes(x: Index, files: map<Hour, File>) {
    SameKeys(x) && Describes(x, files) && Union(x)
  }

  /** The segments that the index covers hold nothing that it does not list. */
  ghost predicate Exact(x: Index, files: map<Hour, File>) {
    forall h :: h in x.ids && h in files ==>
      TidyLines(files[h].lines, h) && !files[h].torn && x.ids[h] == Ids(files[h].lines, h, None)
  }

  /** What an index is worth when no recovery is pending. */
  ghost predicate Matches(a: Archive) {
    && Indexes(a.index, a.disk.files) && a.index.lengths.Keys == a.disk.files.Keys
    && (forall id :: id in a.index.committed <==> OnDisk(a.disk.files, id))
    && (!a.deferred ==> Exact(a.index, a.disk.files))
  }

  ghost predicate Sound(a: Archive) {
    && Listing(a.disk) && SameKeys(a.index)
    && (!a.recoveryNeeded ==> Matches(a))
  }

  /** An exact index of disjoint segments describes a clean archive. */
  lemma ExactIsClean(a: Archive)
    requires Matches(a) && !a.deferred
    ensures Clean(a.disk.files)
  {
    var files, ids := a.disk.files, a.index.ids;
    forall h, g | h in files && g in files && h != g
      ensures Ids(files[h].lines, h, None) !! Ids(files[g].lines, g, None)
    {
      assert ids[h] !! ids[g];
    }
  }

  // ---------------------------------------------------------------- one segment of a recovery

  ghost predicate SameIdsOnDisk(before: map<Hour, File>, after: map<Hour, File>) {
    before.Keys == after.Keys && forall id :: OnDisk(before, id) <==> OnDisk(after, id)
  }

  /** Every row of the second archive is one of the first. */
  ghost predicate OnlyOldRows(before: map<Hour, File>, after: map<Hour, File>) {
    forall h, l :: h in after && l in after[h].lines ==> h in before && l in before[h].lines
  }

  /** A segment is as it was, or has been rewritten tidily. */
  ghost predicate Tidier(before: map<Hour, File>, after: map<Hour, File>) {
    forall h :: h in after && h in before ==> after[h] == before[h] || TidyLines(after[h].lines, h)
  }

  /** Segments that the scan has not reached are as they were; the identities of the others are committed. */
  ghost predicate Progress(s: Scan, files: map<Hour, File>) {
    && s.files.Keys == files.Keys
    && (forall h :: h in files && h !in s.index.ids ==> s.files[h] == files[h])
    && (forall h :: h in files && h in s.index.ids ==> Ids(files[h].lines, h, None) <= s.index.committed)
    && OnlyOldRows(files, s.files)
  }

  ghost predicate ScanInv(s: Scan, files: map<Hour, File>, dir: seq<Hour>, k: nat) {
    && k <= |dir| && s.index.order == dir[..k]
    && Indexes(s.index, s.files) && Progress(s, files)
    && (!s.deferred ==> Exact(s.index, s.files))
  }

  /** Entering a new segment with identities of its own keeps the index in order. */
  lemma EnteringIndexes(x: Index, files: map<Hour, File>, hour: Hour, ids: set<Identity>)
    requires Indexes(x, files) && hour in files && hour !in x.lengths
    requires ids <= Ids(files[hour].lines, hour, None) && ids !! x.committed
    ensures Indexes(Entered(x, hour, Size(files[hour]), ids), files)
  {
    var y := Entered(x, hour, Size(files[hour]), ids);
    assert hour !in x.order;
    forall h | h in x.ids ensures h in y.ids && y.ids[h] == x.ids[h] && x.ids[h] !! ids {
      assert forall id :: id in x.ids[h] ==> Owned(x.ids, id);
    }
    forall id ensures id in y.committed <==> Owned(y.ids, id) {
      if id in ids {
        assert id in y.ids[hour];
      } else if Owned(x.ids, id) {
        var h :| h in x.ids && id in x.ids[h];
        assert id in y.ids[h];
      }
    }
  }

  /** A segment that the index does not cover may change under it. */
  lemma UncoveredMayChange(x: Index, files: map<Hour, File>, hour: Hour, f: File)
    requires Indexes(x, files) && hour !in x.lengths
    ensures Indexes(x, files[hour := f]) && (Exact(x, files) ==> Exact(x, files[hour := f]))
  {
  }

  lemma OldIds(files: map<Hour, File>, after: map<Hour, File>, h: Hour, hour: Hour)
    requires h in files && h in after
    requires h == hour ==> Ids(after[h].lines, h, None) <= Ids(files[h].lines, h, None)
    requires h != hour ==> forall l :: l in after[h].lines ==> l in files[h].lines
    ensures Ids(after[h].lines, h, None) <= Ids(files[h].lines, h, None)
  {
  }

  /** Dropping only committed identities from an unreached segment keeps every identity on disk. */
  lemma ScanKeepsIds(s: Scan, files: map<Hour, File>, dir: seq<Hour>, k: nat, hour: Hour, f: File)
    requires ScanInv(s, files, dir, k) && hour in files && hour !in s.index.ids
    requires Ids(f.lines, hour, None) <= Ids(files[hour].lines, hour, None)
    requires Ids(files[hour].lines, hour, None) <= Ids(f.lines, hour, None) + s.index.committed
    ensures SameIdsOnDisk(files, s.files[hour := f])
  {
    var after := s.files[hour := f];
    forall id ensures OnDisk(files, id) <==> OnDisk(after, id) {
      if OnDisk(files, id) {
        var h :| h in files && id in Ids(files[h].lines, h, None);
        if id in s.index.committed {
          var g :| g in s.index.ids && id in s.index.ids[g];
          assert g in after && after[g] == s.files[g] && id in Ids(after[g].lines, g, None);
        } else {
          assert h in after && id in Ids(after[h].lines, h, None);
        }
      }
      if OnDisk(after, id) {
        var h :| h in after && id in Ids(after[h].lines, h, None);
        OldIds(files, after, h, hour);
      }
    }
  }

  lemma UnlistedIsUncovered(x: Index, files: map<Hour, File>, hour: Hour)
    requires Indexes(x, files) && hour !in x.order
    ensures hour !in x.lengths && hour !in x.ids
  {
  }

  lemma UnreachedIsOld(s: Scan, files: map<Hour, File>, dir: seq<Hour>, k: nat)
    requires ScanInv(s, files, dir, k) && k < |dir| && Lists(dir, files.Keys)
    ensures dir[k] in files && dir[k] in s.files && s.files[dir[k]] == files[dir[k]] && dir[k] !in s.index.ids
  {
    assert dir[k] !in dir[..k];
    UnlistedIsUncovered(s.index, s.files, dir[k]);
  }

  /** A segment left alone, because it is intact or because the clock forbids repairs. */
  lemma LeavingKeepsInv(s: Scan, files: map<Hour, File>, dir: seq<Hour>, k: nat, deferred: bool)
    requires ScanInv(s, files, dir, k) && k < |dir| && Lists(dir, files.Keys)
    requires
      var kept := Keep(files[dir[k]].lines, dir[k], None, s.index.committed);
      (s.deferred ==> deferred) && (!deferred ==> Intact(files[dir[k]], kept))
    ensures
      var kept := Keep(files[dir[k]].lines, dir[k], None, s.index.committed);
      ScanInv(Indexed(s.(deferred := deferred), dir[k], IdsOf(kept)), files, dir, k + 1)
  {
    hide Indexes, Ids;
    var hour := dir[k];
    var f := files[hour];
    var kept := Keep(f.lines, hour, None, s.index.committed);
    KeepMeans(f.lines, hour, None, s.index.committed);
    KeepsEverything(f.lines, hour, s.index.committed);
    UnreachedIsOld(s, files, dir, k);
    UnlistedIsUncovered(s.index, s.files, hour);
    EnteringIndexes(s.index, s.files, hour, IdsOf(kept));
    assert dir[..k + 1] == dir[..k] + [hour];
  }

  lemma RepairingIndexes(x: Index, files: map<Hour, File>, hour: Hour, ids: set<Identity>)
    requires Indexes(x, files) && hour in files && hour !in x.lengths
    requires TidyLines(files[hour].lines, hour) && !files[hour].torn
    requires ids == Ids(files[hour].lines, hour, None) && ids !! x.committed
    ensures
      var y := Entered(x, hour, Size(files[hour]), ids);
      Indexes(y, files) && y.order == x.order + [hour] && (Exact(x, files) ==> Exact(y, files))
  {
    EnteringIndexes(x, files, hour, ids);
  }

  /** A rewritten segment: old rows only, tidy, and missing only what is committed elsewhere. */
  ghost predicate Repairs(f: File, repaired: File, hour: Hour, committed: set<Identity>) {
    && TidyLines(repaired.lines, hour) && !repaired.torn
    && (forall l :: l in repaired.lines ==> l in f.lines)
    && Ids(repaired.lines, hour, None) == Ids(f.lines, hour, None) - committed
  }

  lemma RepairingProgresses(s: Scan, files: map<Hour, File>, hour: Hour, repaired: File, ids: set<Identity>)
    requires Progress(s, files) && hour in files && Repairs(files[hour], repaired, hour, s.index.committed)
    requires ids == Ids(repaired.lines, hour, None)
    ensures Progress(Indexed(s.(files := s.files[hour := repaired]), hour, ids), files)
  {
  }

  /** A segment rewritten with tidy rows of its own that hold no committed identity. */
  lemma RepairingKeepsInv(s: Scan, files: map<Hour, File>, dir: seq<Hour>, k: nat, repaired: File, ids: set<Identity>)
    requires ScanInv(s, files, dir, k) && k < |dir| && Lists(dir, files.Keys)
    requires Repairs(files[dir[k]], repaired, dir[k], s.index.committed) && ids == Ids(repaired.lines, dir[k], None)
    ensures ScanInv(Indexed(s.(files := s.files[dir[k] := repaired]), dir[k], ids), files, dir, k + 1)
  {
    hide Indexes, Progress, Exact;
    var hour := dir[k];
    assert hour !in dir[..k];
    UnlistedIsUncovered(s.index, s.files, hour);
    UncoveredMayChange(s.index, s.files, hour, repaired);
    RepairingProgresses(s, files, hour, repaired, ids);
    RepairingIndexes(s.index, s.files[hour := repaired], hour, ids);
    assert dir[..k + 1] == dir[..k] + [hour];
  }

  lemma KeepRepairs(f: File, hour: Hour, committed: set<Identity>)
    ensures Repairs(f, Kept(f, hour, None, committed), hour, committed)
    ensures Ids(Kept(f, hour, None, committed).lines, hour, None) == IdsOf(Keep(f.lines, hour, None, committed))
  {
    var kept := Keep(f.lines, hour, None, committed);
    KeepMeans(f.lines, hour, None, committed);
    LinesAreTidy(kept, f.lines, hour, None);
    assert forall i :: 0 <= i < |kept| ==> LinesOf(kept)[i] == Whole(kept[i]);
  }

  // ---------------------------------------------------------------- the whole recovery

  /** A scan in order, or one that failed with every identity still on disk. */
  ghost predicate Surviving(s: Scan, a: Archive, k: nat) {
    && SameIdsOnDisk(a.disk.files, s.files) && OnlyOldRows(a.disk.files, s.files) && Tidier(a.disk.files, s.files)
    && (!s.failed ==> ScanInv(s, a.disk.files, a.disk.dir, k))
    && (!s.failed && !a.clock.uncertain ==> !s.deferred)
    && (a.clock.uncertain ==> s.files == a.disk.files)
    && a.gaps <= s.gaps
  }

  lemma ListingLists(d: Disk)
    requires Listing(d)
    ensures Lists(d.dir, d.files.Keys)
  {
  }

  /** The disk after a repair: the same identities, no new rows, and the repaired segment tidy. */
  lemma RepairingSurvives(s: Scan, a: Archive, k: nat, repaired: File)
    requires Listing(a.disk) && k < |a.disk.dir| && ScanInv(s, a.disk.files, a.disk.dir, k)
    requires OnlyOldRows(a.disk.files, s.files) && Tidier(a.disk.files, s.files)
    requires Repairs(a.disk.files[a.disk.dir[k]], repaired, a.disk.dir[k], s.index.committed)
    ensures
      var after := s.files[a.disk.dir[k] := repaired];
      && SameIdsOnDisk(a.disk.files, after) && OnlyOldRows(a.disk.files, after) && Tidier(a.disk.files, after)
  {
    hide ScanInv, SameIdsOnDisk, Listing;
    ListingLists(a.disk);
    UnreachedIsOld(s, a.disk.files, a.disk.dir, k);
    ScanKeepsIds(s, a.disk.files, a.disk.dir, k, a.disk.dir[k], repaired);
  }

  lemma InvIgnoresGaps(s: Scan, t: Scan, files: map<Hour, File>, dir: seq<Hour>, k: nat)
    requires ScanInv(s, files, dir, k) && t == s.(gaps := t.gaps)
    ensures ScanInv(t, files, dir, k)
  {
  }

  lemma SegmentSurvives(s: Scan, a: Archive, k: nat, io: Io)
    requires Listing(a.disk) && k < |a.disk.dir| && !s.failed && Surviving(s, a, k)
    ensures
      Surviving(ScanSegment(s, a.disk.dir[k], a.clock.uncertain, Pinned(a, a.disk.dir[k]), io), a, k + 1)
  {
    hide Listing, Lists, ScanInv, SameIdsOnDisk, OnlyOldRows, Tidier, Repairs;
    var files, hour := a.disk.files, a.disk.dir[k];
    ListingLists(a.disk);
    UnreachedIsOld(s, files, a.disk.dir, k);
    var f := files[hour];
    var kept := Keep(f.lines, hour, None, s.index.committed);
    assert s.files[hour := f] == s.files;
    if Intact(f, kept) {
      if io == Fine {
        LeavingKeepsInv(s, files, a.disk.dir, k, s.deferred);
      }
    } else if a.clock.uncertain {
      if io == Fine {
        var noted := s.(gaps := s.gaps + {DiscardedRecord});
        InvIgnoresGaps(s, noted, files, a.disk.dir, k);
        LeavingKeepsInv(noted, files, a.disk.dir, k, true);
      }
    } else if !Pinned(a, hour) && io != FailsBefore {
      var repaired := Kept(f, hour, None, s.index.committed);
      KeepRepairs(f, hour, s.index.committed);
      RepairingSurvives(s, a, k, repaired);
      var noted := s.(gaps := NoteIf(s.gaps + {DiscardedRecord}, HasDiscards(f), DiscardedRecord));
      InvIgnoresGaps(s, noted, files, a.disk.dir, k);
      RepairingKeepsInv(noted, files, a.disk.dir, k, repaired, IdsOf(kept));
      var done := Indexed(noted.(files := s.files[hour := repaired]), hour, IdsOf(kept));
      InvIgnoresGaps(done, done.(gaps := s.gaps + {DiscardedRecord}), files, a.disk.dir, k + 1);
    }
  }

  lemma EmptyScanSurvives(a: Archive)
    ensures Surviving(Scan(a.disk.files, NOTHING, false, a.gaps, false), a, 0)
  {
    assert forall id :: !Owned(NOTHING.ids, id);
  }

  lemma FailureSurvives(s: Scan, a: Archive, k: nat)
    requires s.failed && Surviving(s, a, k)
    ensures Surviving(s, a, k + 1)
  {
  }

  lemma {:induction false} ScanSurvives(a: Archive, k: nat, ios: seq<Io>)
    requires Listing(a.disk) && k <= |a.disk.dir|
    ensures Surviving(ScanTo(a, k, ios), a, k)
  {
    hide Surviving, ScanSegment, Listing;
    if k == 0 {
      EmptyScanSurvives(a);
    } else {
      ScanSurvives(a, k - 1, ios);
      var s := ScanTo(a, k - 1, ios);
      if s.failed {
        FailureSurvives(s, a, k - 1);
      } else {
        SegmentSurvives(s, a, k - 1, At(ios, k - 1, Fine));
      }
    }
  }

  /** A finished scan has indexed the whole archive. */
  lemma FinishedScanMatches(s: Scan, a: Archive)
    requires Listing(a.disk) && !s.failed && Surviving(s, a, |a.disk.dir|)
    ensures Matches(Scanned(a, s).(index := s.index))
  {
    var files := a.disk.files;
    assert a.disk.dir[..|a.disk.dir|] == a.disk.dir;
    assert s.index.lengths.Keys == s.files.Keys;
    forall id ensures id in s.index.committed <==> OnDisk(s.files, id) {
      if id in s.index.committed {
        var h :| h in s.index.ids && id in s.index.ids[h];
        assert id in Ids(s.files[h].lines, h, None);
      }
      if OnDisk(s.files, id) {
        var h :| h in files && id in Ids(files[h].lines, h, None);
      }
    }
  }

  lemma AdoptingKeepsTheScan(a: Archive, s: Scan, ending: Ending)
    ensures
      var b := Adopt(a, s, ending).0;
      b.disk == a.disk.(files := s.files) && (b.index == a.index || (!s.failed && b.index == s.index))
  {
  }

  lemma SurvivorsAreListed(s: Scan, a: Archive)
    requires Listing(a.disk) && Surviving(s, a, |a.disk.dir|)
    ensures Listing(a.disk.(files := s.files)) && (!s.failed ==> SameKeys(s.index))
  {
  }

  lemma FinishedScanIsUndeferred(s: Scan, a: Archive)
    requires !s.failed && !a.clock.uncertain && Surviving(s, a, |a.disk.dir|)
    ensures !s.deferred
  {
  }

  /** Whatever fails, a recovery keeps the identity of every complete row in its own hour and invents no row. */
  lemma {:induction false} RecoveryKeepsEveryIdentity(a: Archive, pass: Pass)
    requires Sound(a)
    ensures
      var b := Recover(a, pass).0;
      && SameIdsOnDisk(a.disk.files, b.disk.files) && OnlyOldRows(a.disk.files, b.disk.files)
      && Tidier(a.disk.files, b.disk.files) && Listing(b.disk) && SameKeys(b.index)
  {
    hide SameIdsOnDisk, OnlyOldRows, Tidier;
    var s := ScanTo(a, |a.disk.dir|, pass.ios);
    ScanSurvives(a, |a.disk.dir|, pass.ios);
    AdoptingKeepsTheScan(a, s, pass.ending);
    SurvivorsAreListed(s, a);
  }

  /** Matching is about the disk, the index and the deferred mark alone. */
  lemma MatchesIsFramed(a: Archive, b: Archive)
    requires Matches(a) && b.disk == a.disk && b.index == a.index && b.deferred == a.deferred
    ensures Matches(b)
  {
  }

  /**
   * A recovery that succeeds has indexed exactly what is on disk, and under a trusted clock nothing torn, garbled,
   * misplaced or repeated is left there.
   */
  lemma RecoveryIndexesTheDisk(a: Archive, pass: Pass)
    requires Sound(a) && Recover(a, pass).1
    ensures
      var b := Recover(a, pass).0;
      !b.recoveryNeeded && Matches(b) && (!a.clock.uncertain ==> !b.deferred && Clean(b.disk.files))
  {
    hide ScanTo, Matches, Clean, Listing, Surviving;
    var s := ScanTo(a, |a.disk.dir|, pass.ios);
    ScanSurvives(a, |a.disk.dir|, pass.ios);
    FinishedScanMatches(s, a);
    if !a.clock.uncertain {
      FinishedScanIsUndeferred(s, a);
    }
    var b := Recover(a, pass).0;
    MatchesIsFramed(Scanned(a, s).(index := s.index), b);
    if !a.clock.uncertain {
      ExactIsClean(b);
    }
  }

  /** An uncertain clock forbids repairs: the recovery then changes no byte of the archive. */
  lemma UncertainRecoveryTouchesNothing(a: Archive, pass: Pass)
    requires Sound(a) && a.clock.uncertain
    ensures Recover(a, pass).0.disk == a.disk
  {
    hide ScanTo, ScanInv, SameIdsOnDisk, OnlyOldRows, Tidier, Listing, SameKeys, Matches;
    ScanSurvives(a, |a.disk.dir|, pass.ios);
  }
}
