/** Pruning removes no row at or after the cutoff; undisturbed, it leaves exactly those. */
module TracePruning {
  import opened Options
  import opened TraceClock
  import opened TraceArchiveSpec
  import opened TraceRecovery
  import opened TraceAppending

  /** Rows at or after the cutoff are where they were. */
  ghost predicate KeepsRecent(before: map<Hour, File>, after: map<Hour, File>, cutoff: int) {
    forall h, r :: Holds(before, h, r) && r.ts >= cutoff ==> Holds(after, h, r)
  }

  /** Nothing recent is lost and nothing is invented. */
  ghost predicate Sheds(before: map<Hour, File>, after: map<Hour, File>, cutoff: int) {
    KeepsRecent(before, after, cutoff) && OnlyOldRows(before, after)
  }

  lemma ShedsNothing(files: map<Hour, File>, cutoff: int)
    ensures Sheds(files, files, cutoff)
  {
  }

  lemma ShedsTransitive(a: map<Hour, File>, b: map<Hour, File>, c: map<Hour, File>, cutoff: int)
    requires Sheds(a, b, cutoff) && Sheds(b, c, cutoff)
    ensures Sheds(a, c, cutoff)
  {
  }

  // ---------------------------------------------------------------- names and identities that go away

  lemma {:induction false} WithoutMembers(s: seq<Hour>, hour: Hour)
    ensures forall h :: h in Without(s, hour) <==> h in s && h != hour
  {
    if s != [] {
      WithoutMembers(s[1..], hour);
      assert s == [s[0]] + s[1..];
    }
  }

  ghost predicate OnceEach(listed: seq<Hour>) {
    forall i, j :: 0 <= i < j < |listed| ==> listed[i] != listed[j]
  }

  lemma {:induction false} WithoutOrders(s: seq<Hour>, hour: Hour)
    ensures OnceEach(s) ==> OnceEach(Without(s, hour))
    ensures Sorted(s) ==> Sorted(Without(s, hour))
  {
    if s != [] {
      var rest, less := s[1..], Without(s[1..], hour);
      WithoutOrders(rest, hour);
      WithoutMembers(rest, hour);
      assert forall i :: 0 <= i < |rest| ==> rest[i] == s[i + 1];
      assert forall i :: 0 <= i < |less| ==> less[i] in rest;
    }
  }

  lemma WithoutLists(s: seq<Hour>, keys: set<Hour>, hour: Hour)
    requires Lists(s, keys)
    ensures Lists(Without(s, hour), keys - {hour})
  {
    WithoutMembers(s, hour);
    WithoutOrders(s, hour);
    assert OnceEach(s) && OnceEach(Without(s, hour));
  }

  /** An index that says exactly what the files hold. */
  ghost predicate Fits(x: Index, files: map<Hour, File>) {
    && Indexes(x, files) && x.lengths.Keys == files.Keys && Exact(x, files)
    && (forall id :: id in x.committed <==> OnDisk(files, id))
  }

  lemma FitsIsMatches(a: Archive)
    requires !a.deferred
    ensures Matches(a) <==> Fits(a.index, a.disk.files)
  {
  }

  lemma ForgettingIndexes(x: Index, files: map<Hour, File>, hour: Hour)
    requires Indexes(x, files) && Exact(x, files) && hour in x.ids && x.lengths.Keys == files.Keys
    ensures
      var y := Forgotten(x, hour);
      Indexes(y, files - {hour}) && Exact(y, files - {hour}) && y.lengths.Keys == (files - {hour}).Keys
  {
    var y := Forgotten(x, hour);
    WithoutLists(x.order, x.lengths.Keys, hour);
    assert y.lengths.Keys == x.lengths.Keys - {hour};
    forall id ensures id in y.committed <==> Owned(y.ids, id) {
      if id in y.committed {
        var h :| h in x.ids && id in x.ids[h];
        assert h in y.ids && id in y.ids[h];
      }
      if Owned(y.ids, id) {
        var h :| h in y.ids && id in y.ids[h];
        assert h in x.ids && x.ids[h] !! x.ids[hour] && Owned(x.ids, id);
      }
    }
  }

  lemma ForgettingFits(x: Index, files: map<Hour, File>, hour: Hour)
    requires Fits(x, files) && hour in x.ids
    ensures Fits(Forgotten(x, hour), files - {hour})
  {
    ForgettingIndexes(x, files, hour);
    OwnedIsOnDisk(Forgotten(x, hour), files - {hour});
  }

  lemma TrimmingOwns(x: Index, hour: Hour, f: File, ids: set<Identity>)
    requires SameKeys(x) && Union(x) && hour in x.ids && ids <= x.ids[hour]
    ensures SameKeys(Trimmed(x, hour, f, ids)) && Union(Trimmed(x, hour, f, ids))
  {
    var y := Trimmed(x, hour, f, ids);
    forall id ensures id in y.committed <==> Owned(y.ids, id) {
      if id in y.committed {
        var h :| h in x.ids && id in x.ids[h];
        assert h in y.ids && id in y.ids[h];
      }
      if Owned(y.ids, id) {
        var h :| h in y.ids && id in y.ids[h];
        assert id in x.ids[h] && Owned(x.ids, id);
        assert h != hour ==> x.ids[h] !! x.ids[hour];
      }
    }
  }

  lemma TrimmingDescribes(x: Index, files: map<Hour, File>, hour: Hour, f: File, ids: set<Identity>)
    requires SameKeys(x) && Describes(x, files) && Exact(x, files) && x.lengths.Keys == files.Keys && hour in files
    requires TidyLines(f.lines, hour) && !f.torn && ids == Ids(f.lines, hour, None)
    ensures
      var y, files' := Trimmed(x, hour, f, ids), files[hour := f];
      Describes(y, files') && Exact(y, files') && y.lengths.Keys == files'.Keys
  {
  }

  lemma TrimmingFits(x: Index, files: map<Hour, File>, hour: Hour, f: File, ids: set<Identity>)
    requires Fits(x, files) && hour in files && ids <= x.ids[hour]
    requires TidyLines(f.lines, hour) && !f.torn && ids == Ids(f.lines, hour, None)
    ensures Fits(Trimmed(x, hour, f, ids), files[hour := f])
  {
    TrimmingOwns(x, hour, f, ids);
    TrimmingDescribes(x, files, hour, f, ids);
    OwnedIsOnDisk(Trimmed(x, hour, f, ids), files[hour := f]);
  }

  // ---------------------------------------------------------------- one segment

  /** A tidy segment trimmed to a cutoff: exactly its lines at or after the cutoff. */
  ghost predicate Trims(f: File, g: File, hour: Hour, cutoff: int) {
    && TidyLines(g.lines, hour) && !g.torn && Ids(g.lines, hour, None) <= Ids(f.lines, hour, None)
    && forall l :: l in g.lines <==> l in f.lines && l.Whole? && l.row.ts >= cutoff
  }

  lemma KeepTrims(f: File, hour: Hour, cutoff: int)
    requires TidyLines(f.lines, hour)
    ensures Trims(f, Kept(f, hour, Some(cutoff), {}), hour, cutoff)
    ensures
      Ids(Kept(f, hour, Some(cutoff), {}).lines, hour, None) == IdsOf(Keep(f.lines, hour, Some(cutoff), {}))
  {
    var kept := Keep(f.lines, hour, Some(cutoff), {});
    var g := LinesOf(kept);
    KeepMeans(f.lines, hour, Some(cutoff), {});
    LinesAreTidy(kept, f.lines, hour, Some(cutoff));
    assert forall i :: 0 <= i < |kept| ==> g[i] == Whole(kept[i]);
    forall l | l in f.lines && l.Whole? && l.row.ts >= cutoff ensures l in g {
      assert Eligible(l, hour, Some(cutoff)) && l.row.id in IdsOf(kept);
      var r :| r in kept && r.id == l.row.id;
      assert Whole(r) in f.lines;
      assert Whole(r) == l;
      assert Whole(r) in g;
    }
  }

  /** An archive fit for pruning: clean, listed, and exactly indexed unless recovery is due. */
  ghost predicate Kempt(a: Archive) {
    Listing(a.disk) && SameKeys(a.index) && Clean(a.disk.files) && !a.deferred && (!a.recoveryNeeded ==> Matches(a))
  }

  lemma UnlinkingOneFile(d: Disk, hour: Hour, cutoff: int)
    requires Listing(d) && Clean(d.files) && hour in d.files && EndOf(hour) <= cutoff
    ensures
      var d' := Unlinked(d, hour);
      Listing(d') && Clean(d'.files) && Sheds(d.files, d'.files, cutoff)
  {
    WithoutLists(d.dir, d.files.Keys, hour);
    WithoutOrders(d.dir, hour);
    assert (d.files - {hour}).Keys == d.files.Keys - {hour};
    forall r | Holds(d.files, hour, r) ensures r.ts < cutoff {
      assert Eligible(Whole(r), hour, None);
    }
  }

  lemma UnlinkedFiles(d: Disk, hour: Hour)
    ensures Unlinked(d, hour).files == d.files - {hour}
  {
  }

  lemma ForgottenKeys(x: Index, hour: Hour)
    requires SameKeys(x)
    ensures SameKeys(Forgotten(x, hour))
  {
    WithoutLists(x.order, x.lengths.Keys, hour);
    assert Forgotten(x, hour).lengths.Keys == x.lengths.Keys - {hour};
  }

  lemma UnlinkingPrunes(a: Archive, hour: Hour, cutoff: int, io: Io)
    requires Kempt(a) && hour in a.disk.files && hour in a.index.ids && EndOf(hour) <= cutoff
    ensures Kempt(Unlink(a, hour, io)) && Sheds(a.disk.files, Unlink(a, hour, io).disk.files, cutoff)
  {
    hide Fits, Matches, Clean, SameKeys, Listing, Sheds, Forgotten, Unlinked;
    UnlinkingOneFile(a.disk, hour, cutoff);
    ShedsNothing(a.disk.files, cutoff);
    if io == Fine {
      ForgottenKeys(a.index, hour);
      if !a.recoveryNeeded {
        FitsIsMatches(a);
        ForgettingFits(a.index, a.disk.files, hour);
        UnlinkedFiles(a.disk, hour);
        FitsIsMatches(Unlink(a, hour, io));
      }
    }
  }

  lemma CleanAt(files: map<Hour, File>, hour: Hour)
    requires Clean(files) && hour in files
    ensures TidyLines(files[hour].lines, hour) && !files[hour].torn
  {
  }

  lemma FitsAt(x: Index, files: map<Hour, File>, hour: Hour)
    requires Fits(x, files) && hour in files
    ensures hour in x.ids && x.ids[hour] == Ids(files[hour].lines, hour, None)
  {
  }

  lemma TrimmedKeys(x: Index, hour: Hour, f: File, ids: set<Identity>)
    requires SameKeys(x) && hour in x.ids
    ensures SameKeys(Trimmed(x, hour, f, ids))
  {
    assert Trimmed(x, hour, f, ids).lengths.Keys == x.lengths.Keys;
  }

  lemma TrimmingOneFile(d: Disk, hour: Hour, g: File, cutoff: int)
    requires Listing(d) && Clean(d.files) && hour in d.files && Trims(d.files[hour], g, hour, cutoff)
    ensures
      var d' := d.(files := d.files[hour := g]);
      Listing(d') && Clean(d'.files) && Sheds(d.files, d'.files, cutoff)
  {
    var files := d.files;
    forall h | h in files && h != hour ensures Ids(files[h].lines, h, None) !! Ids(g.lines, hour, None) {
      assert Ids(files[h].lines, h, None) !! Ids(files[hour].lines, hour, None);
    }
    OneFileTidy(files, hour, g);
    assert files[hour := g].Keys == files.Keys;
  }

  lemma TrimmingPrunes(a: Archive, hour: Hour, cutoff: int, io: Io)
    requires Kempt(a) && hour in a.disk.files && hour in a.index.ids
    ensures Kempt(Trim(a, hour, cutoff, io)) && Sheds(a.disk.files, Trim(a, hour, cutoff, io).disk.files, cutoff)
  {
    hide Fits, Matches, Clean, SameKeys, Listing, Sheds;
    var f := a.disk.files[hour];
    var g, ids := Kept(f, hour, Some(cutoff), {}), IdsOf(Keep(f.lines, hour, Some(cutoff), {}));
    CleanAt(a.disk.files, hour);
    KeepTrims(f, hour, cutoff);
    TrimmingOneFile(a.disk, hour, g, cutoff);
    if io == FailsBefore {
      assert a.disk.files[hour := f] == a.disk.files;
      ShedsNothing(a.disk.files, cutoff);
    } else if io == Fine {
      TrimmedKeys(a.index, hour, g, ids);
      if !a.recoveryNeeded {
        FitsIsMatches(a);
        FitsAt(a.index, a.disk.files, hour);
        TrimmingFits(a.index, a.disk.files, hour, g, ids);
        FitsIsMatches(Trim(a, hour, cutoff, io));
      }
    }
  }

  lemma HourIsPruned(a: Archive, hour: Hour, cutoff: int, io: Io)
    requires Kempt(a) && hour in a.index.ids
    ensures Kempt(PruneHour(a, hour, cutoff, io))
    ensures Sheds(a.disk.files, PruneHour(a, hour, cutoff, io).disk.files, cutoff)
  {
    hide Unlink, Trim, Sheds, Clean, SameKeys, Listing;
    ShedsNothing(a.disk.files, cutoff);
    if !Pinned(a, hour) && StartOf(hour) < cutoff && hour in a.disk.files {
      if EndOf(hour) <= cutoff {
        UnlinkingPrunes(a, hour, cutoff, io);
      } else {
        TrimmingPrunes(a, hour, cutoff, io);
      }
    }
  }

  // ---------------------------------------------------------------- the whole pass

  /** Segments that the pass has yet to reach are still indexed. */
  ghost predicate Ahead(listed: seq<Hour>, k: nat, x: Index) {
    forall i :: k <= i < |listed| ==> listed[i] in x.ids
  }

  lemma OthersStayIndexed(a: Archive, hour: Hour, cutoff: int, io: Io)
    ensures a.index.ids.Keys - {hour} <= PruneHour(a, hour, cutoff, io).index.ids.Keys
  {
  }

  lemma SweepIsPruned(a: Archive, listed: seq<Hour>, k: nat, cutoff: int, sweep: Sweep)
    requires Kempt(a) && k < |listed| && OnceEach(listed)
    requires a.stopping || Ahead(listed, k, a.index)
    ensures
      var b := SweepHour(a, listed[k], cutoff, sweep);
      Kempt(b) && Sheds(a.disk.files, b.disk.files, cutoff) && (b.stopping || Ahead(listed, k + 1, b.index))
  {
    if !a.stopping {
      if sweep.SweepStop? {
        if !a.recoveryNeeded {
          MatchesIsFramed(a, a.(stopping := true));
        }
      } else {
        HourIsPruned(a, listed[k], cutoff, sweep.io);
        OthersStayIndexed(a, listed[k], cutoff, sweep.io);
      }
    }
  }

  lemma {:induction false} PassIsPruned(a: Archive, listed: seq<Hour>, k: nat, cutoff: int, sweeps: seq<Sweep>)
    requires Kempt(a) && OnceEach(listed) && Ahead(listed, 0, a.index) && k <= |listed|
    ensures
      var b := PruneTo(a, listed, k, cutoff, sweeps);
      Kempt(b) && Sheds(a.disk.files, b.disk.files, cutoff) && (b.stopping || Ahead(listed, k, b.index))
  {
    hide Kempt, SweepHour, Sheds;
    if k == 0 {
      ShedsNothing(a.disk.files, cutoff);
    } else {
      PassIsPruned(a, listed, k - 1, cutoff, sweeps);
      var before := PruneTo(a, listed, k - 1, cutoff, sweeps);
      SweepIsPruned(before, listed, k - 1, cutoff, At(sweeps, k - 1, Does(Fine)));
      ShedsTransitive(a.disk.files, before.disk.files, PruneTo(a, listed, k, cutoff, sweeps).disk.files, cutoff);
    }
  }

  /** Whatever fails and whatever is pinned, no row at or after the cutoff goes, and the archive stays tidy. */
  lemma PruningKeepsRecentRows(a: Archive, cutoff: int, sweeps: seq<Sweep>)
    requires Listing(a.disk) && Matches(a) && !a.deferred
    ensures Kempt(Prune(a, cutoff, sweeps)) && Sheds(a.disk.files, Prune(a, cutoff, sweeps).disk.files, cutoff)
  {
    ExactIsClean(a);
    PassIsPruned(a, a.index.order, |a.index.order|, cutoff, sweeps);
  }

  // ---------------------------------------------------------------- undisturbed

  /** Every row of the segments that the pass has reached is recent. */
  ghost predicate RecentOnly(files: map<Hour, File>, listed: seq<Hour>, k: nat, cutoff: int) {
    forall i, r :: 0 <= i < k <= |listed| && Holds(files, listed[i], r) ==> r.ts >= cutoff
  }

  lemma MatchesAt(a: Archive, hour: Hour)
    requires Matches(a) && hour in a.index.ids
    ensures hour in a.disk.files
  {
  }

  lemma HourIsTrimmed(a: Archive, hour: Hour, cutoff: int)
    requires Kempt(a) && hour in a.index.ids && !a.recoveryNeeded && a.pins == map[]
    ensures
      var b := PruneHour(a, hour, cutoff, Fine);
      && !b.recoveryNeeded && b.pins == map[] && b.stopping == a.stopping
      && (forall h :: h != hour && h in b.disk.files ==> h in a.disk.files && b.disk.files[h] == a.disk.files[h])
      && (forall r :: Holds(b.disk.files, hour, r) ==> r.ts >= cutoff)
  {
    hide Matches, SameKeys, Listing, Apart;
    MatchesAt(a, hour);
    var b, files := PruneHour(a, hour, cutoff, Fine), a.disk.files;
    if StartOf(hour) >= cutoff {
      forall r | Holds(files, hour, r) ensures r.ts >= cutoff {
        assert Eligible(Whole(r), hour, None);
      }
    } else if EndOf(hour) > cutoff {
      KeepTrims(files[hour], hour, cutoff);
    }
  }

  lemma HourIsRecent(a: Archive, listed: seq<Hour>, k: nat, cutoff: int)
    requires Kempt(a) && k < |listed| && Ahead(listed, k, a.index) && RecentOnly(a.disk.files, listed, k, cutoff)
    requires !a.recoveryNeeded && a.pins == map[] && !a.stopping
    ensures
      var b := SweepHour(a, listed[k], cutoff, Does(Fine));
      && !b.recoveryNeeded && !b.stopping && b.pins == map[] && RecentOnly(b.disk.files, listed, k + 1, cutoff)
  {
    hide Kempt, PruneHour;
    HourIsTrimmed(a, listed[k], cutoff);
    var b := SweepHour(a, listed[k], cutoff, Does(Fine));
    forall i, r | 0 <= i < k + 1 && Holds(b.disk.files, listed[i], r) ensures r.ts >= cutoff {
      if listed[i] != listed[k] {
        assert Holds(a.disk.files, listed[i], r);
      }
    }
  }

  lemma {:induction false} UndisturbedPassIsComplete(a: Archive, listed: seq<Hour>, k: nat, cutoff: int)
    requires Kempt(a) && OnceEach(listed) && Ahead(listed, 0, a.index) && k <= |listed|
    requires !a.recoveryNeeded && !a.stopping && a.pins == map[]
    ensures
      var b := PruneTo(a, listed, k, cutoff, []);
      !b.recoveryNeeded && !b.stopping && b.pins == map[] && RecentOnly(b.disk.files, listed, k, cutoff)
  {
    hide Kempt, SweepHour, Sheds;
    if k != 0 {
      UndisturbedPassIsComplete(a, listed, k - 1, cutoff);
      PassIsPruned(a, listed, k - 1, cutoff, []);
      HourIsRecent(PruneTo(a, listed, k - 1, cutoff, []), listed, k - 1, cutoff);
    }
  }

  /** With no failure, no stop and no pin, exactly the rows at or after the cutoff remain, and the index is exact. */
  lemma UndisturbedPruningIsExact(a: Archive, cutoff: int)
    requires Listing(a.disk) && Matches(a) && !a.deferred && !a.recoveryNeeded && !a.stopping && a.pins == map[]
    ensures
      var b := Prune(a, cutoff, []);
      && !b.recoveryNeeded && Matches(b)
      && forall h, r :: Holds(b.disk.files, h, r) <==> Holds(a.disk.files, h, r) && r.ts >= cutoff
  {
    ExactIsClean(a);
    var order, b := a.index.order, Prune(a, cutoff, []);
    PassIsPruned(a, order, |order|, cutoff, []);
    UndisturbedPassIsComplete(a, order, |order|, cutoff);
    forall h, r | Holds(b.disk.files, h, r) ensures r.ts >= cutoff && Holds(a.disk.files, h, r) {
      assert h in a.disk.files && h in order;
      var i :| 0 <= i < |order| && order[i] == h;
      assert Holds(b.disk.files, order[i], r);
    }
  }
}
