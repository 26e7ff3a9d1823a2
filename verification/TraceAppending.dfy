/** Appends land only on clean segments, never write an identity twice, and leave a tidy archive even when torn. */
module TraceAppending {
  import opened Options
  import opened TraceClock
  import opened TraceArchiveSpec
  import opened TraceRecovery

  predicate Holds(files: map<Hour, File>, hour: Hour, row: Row) {
    hour in files && Whole(row) in files[hour].lines
  }

  // ---------------------------------------------------------------- batches

  function BatchIds(batches: seq<Batch>): set<Identity> {
    if batches == [] then {} else IdsOf(batches[0].rows) + BatchIds(batches[1..])
  }

  /** Distinct rows, all of the batch's own hour. */
  ghost predicate Fit(b: Batch) {
    Distinct(b.rows) && forall r :: r in b.rows ==> HourOf(r.ts) == b.hour
  }

  ghost predicate WellBatched(batches: seq<Batch>) {
    batches == [] ||
    (Fit(batches[0]) && IdsOf(batches[0].rows) !! BatchIds(batches[1..]) && WellBatched(batches[1..]))
  }

  lemma {:induction false} AddingIsWellBatched(batches: seq<Batch>, row: Row)
    requires WellBatched(batches) && row.id !in BatchIds(batches)
    ensures WellBatched(AddTo(batches, row)) && BatchIds(AddTo(batches, row)) == BatchIds(batches) + {row.id}
  {
    var added := AddTo(batches, row);
    if batches == [] {
      assert IdsOf([row]) == {row.id} && added[1..] == [];
    } else if batches[0].hour == HourOf(row.ts) {
      assert added[1..] == batches[1..];
      IdsOfMore(batches[0].rows, row);
      assert forall i :: 0 <= i < |batches[0].rows| ==> batches[0].rows[i].id in IdsOf(batches[0].rows);
    } else {
      assert added[1..] == AddTo(batches[1..], row);
      AddingIsWellBatched(batches[1..], row);
    }
  }

  /** A row that a flush acting at this time must store, unless it is stored already. */
  predicate Due(c: Candidate, now: int) {
    c.fits && now - RETENTION <= c.row.ts <= now + CLOCK_JUMP
  }

  lemma NoBatches()
    ensures WellBatched([]) && BatchIds([]) == {}
  {
  }

  /** Gathering takes each due row that is not committed once, and nothing committed. */
  lemma {:induction false} GatheringTakesWhatIsDue(rows: seq<Candidate>, committed: set<Identity>, now: int)
    ensures
      var g := Gather(rows, committed, now);
      && WellBatched(g.batches) && BatchIds(g.batches) == g.pending && g.pending !! committed
      && (forall c :: c in rows && Due(c, now) ==> c.row.id in committed + g.pending)
  {
    hide WellBatched, BatchIds, AddTo;
    if rows == [] {
      NoBatches();
    } else {
      var before, c := Gather(rows[..|rows| - 1], committed, now), rows[|rows| - 1];
      GatheringTakesWhatIsDue(rows[..|rows| - 1], committed, now);
      assert rows == rows[..|rows| - 1] + [c];
      if Wanted(before, c, committed, now) {
        AddingIsWellBatched(before.batches, c.row);
      }
    }
  }

  // ---------------------------------------------------------------- the directory listing

  lemma InsertKeepsNumbers(dir: seq<Hour>, hour: Hour)
    requires Sorted(dir) && dir != [] && dir[0].number < hour.number
    requires forall h :: h in Insert(dir[1..], hour) <==> h in dir[1..] || h == hour
    ensures forall h :: h in Insert(dir[1..], hour) ==> dir[0].number < h.number
  {
  }

  lemma {:induction false} InsertingLists(dir: seq<Hour>, hour: Hour)
    requires Sorted(dir)
    ensures Sorted(Insert(dir, hour)) && forall h :: h in Insert(dir, hour) <==> h in dir || h == hour
  {
    if dir == [] {
    } else if hour == dir[0] {
    } else if hour.number < dir[0].number {
      var longer := [hour] + dir;
      forall i, j | 0 <= i < j < |longer| ensures longer[i].number < longer[j].number {
        assert longer[j] == dir[j - 1];
      }
    } else {
      InsertingLists(dir[1..], hour);
      var rest := Insert(dir[1..], hour);
      InsertKeepsNumbers(dir, hour);
      assert Insert(dir, hour) == [dir[0]] + rest;
      assert dir == [dir[0]] + dir[1..];
    }
  }

  /** Names listed once each stay so. */
  lemma SortedIsNoDup(dir: seq<Hour>, keys: set<Hour>)
    requires Sorted(dir) && forall h :: h in dir <==> h in keys
    ensures Lists(dir, keys)
  {
    forall i, j | 0 <= i < j < |dir| ensures dir[i] != dir[j] {
      assert dir[i].number < dir[j].number;
    }
  }

  lemma StoringLists(d: Disk, hour: Hour, f: File)
    requires Listing(d)
    ensures Listing(Stored(d, hour, f))
  {
    InsertingLists(d.dir, hour);
    SortedIsNoDup(Insert(d.dir, hour), d.files.Keys + {hour});
    assert Stored(d, hour, f).files.Keys == d.files.Keys + {hour};
  }

  // ---------------------------------------------------------------- one batch

  /** No file disappears and no line of one does: files only grow at the end. */
  ghost predicate Grows(before: map<Hour, File>, after: map<Hour, File>) {
    forall h :: h in before ==> h in after && before[h].lines <= after[h].lines
  }

  /** The files hold nothing but their own lines and, in one of them, lines of the batch. */
  ghost predicate WrittenTo(f: File, g: File, hour: Hour, ids: set<Identity>) {
    f.lines <= g.lines && TidyLines(g.lines, hour)
    && Ids(g.lines, hour, None) == Ids(f.lines, hour, None) + ids
  }

  lemma ExtendingIsTidy(f: File, rows: seq<Row>, hour: Hour)
    requires !f.torn && TidyLines(f.lines, hour) && Fit(Batch(hour, rows))
    requires IdsOf(rows) !! Ids(f.lines, hour, None)
    ensures WrittenTo(f, Extended(f, rows), hour, IdsOf(rows)) && !Extended(f, rows).torn
  {
    var written := LinesOf(rows);
    var longer := f.lines + written;
    assert Extended(f, rows).lines == longer;
    assert RowsOf(rows, written, hour, None) by {
      assert forall i :: 0 <= i < |rows| ==> written[i] == Whole(rows[i]);
    }
    LinesAreTidy(rows, written, hour, None);
    assert forall l :: l in longer <==> l in f.lines || l in written;
    assert forall i :: 0 <= i < |f.lines| ==> f.lines[i].row.id in Ids(f.lines, hour, None);
    assert forall i :: 0 <= i < |written| ==> written[i].row.id in IdsOf(rows);
  }

  lemma TearingIsTidy(f: File, rows: seq<Row>, lines: nat, fragment: bool, hour: Hour)
    requires !f.torn && TidyLines(f.lines, hour) && Fit(Batch(hour, rows))
    requires IdsOf(rows) !! Ids(f.lines, hour, None)
    ensures
      exists ids: set<Identity> :: ids <= IdsOf(rows) && WrittenTo(f, Torn(f, rows, lines, fragment), hour, ids)
  {
    var some := if lines >= |rows| then rows else rows[..lines];
    assert forall r :: r in some ==> r in rows;
    assert IdsOf(some) <= IdsOf(rows);
    ExtendingIsTidy(f, some, hour);
    assert WrittenTo(f, Torn(f, rows, lines, fragment), hour, IdsOf(some));
  }

  lemma NothingWritten(hour: Hour)
    ensures TidyLines([], hour) && Ids([], hour, None) == {}
  {
  }

  /** The file of an indexed archive that a batch goes to is clean, and holds none of the batch's identities. */
  lemma TargetIsClean(a: Archive, hour: Hour, ids: set<Identity>)
    requires Matches(a) && !a.deferred && ids !! a.index.committed
    ensures
      var f := FileAt(a.disk.files, hour);
      !f.torn && TidyLines(f.lines, hour) && ids !! Ids(f.lines, hour, None)
  {
    NothingWritten(hour);
    var f := FileAt(a.disk.files, hour);
    forall id | id in Ids(f.lines, hour, None) ensures id in a.index.committed {
      assert OnDisk(a.disk.files, id);
    }
  }

  /** A file that gains new identities still shares none with another. */
  lemma WritingKeepsApart(a: Archive, hour: Hour, g: File, ids: set<Identity>, h: Hour)
    requires Matches(a) && Apart(a.disk.files) && ids !! a.index.committed && h in a.disk.files && h != hour
    requires
      Ids(g.lines, hour, None) == ids + if hour in a.disk.files then Ids(a.disk.files[hour].lines, hour, None) else {}
    ensures Ids(a.disk.files[h].lines, h, None) !! Ids(g.lines, hour, None)
  {
    forall id | id in Ids(a.disk.files[h].lines, h, None) ensures id !in ids {
      assert OnDisk(a.disk.files, id);
    }
  }

  lemma OneFileTidy(files: map<Hour, File>, hour: Hour, g: File)
    requires Tidy(files) && TidyLines(g.lines, hour)
    requires forall h :: h in files && h != hour ==> Ids(files[h].lines, h, None) !! Ids(g.lines, hour, None)
    ensures Tidy(files[hour := g])
  {
  }

  /** Writing new identities to one file of a tidy archive keeps it tidy. */
  lemma WritingKeepsTidy(a: Archive, hour: Hour, g: File, ids: set<Identity>)
    requires Matches(a) && Tidy(a.disk.files) && ids !! a.index.committed
    requires WrittenTo(FileAt(a.disk.files, hour), g, hour, ids)
    ensures Tidy(a.disk.files[hour := g]) && Grows(a.disk.files, a.disk.files[hour := g])
  {
    var files := a.disk.files;
    NothingWritten(hour);
    forall h | h in files && h != hour ensures Ids(files[h].lines, h, None) !! Ids(g.lines, hour, None) {
      WritingKeepsApart(a, hour, g, ids, h);
    }
    OneFileTidy(files, hour, g);
  }

  lemma KnownIsOnDisk(a: Archive, hour: Hour)
    requires Matches(a) && !a.deferred
    ensures (if hour in a.index.ids then a.index.ids[hour] else {}) == Ids(FileAt(a.disk.files, hour).lines, hour, None)
  {
    NothingWritten(hour);
  }

  lemma EnteringDescribes(x: Index, files: map<Hour, File>, hour: Hour, g: File, ids: set<Identity>)
    requires SameKeys(x) && Describes(x, files) && Exact(x, files) && x.lengths.Keys == files.Keys
    requires TidyLines(g.lines, hour) && !g.torn && ids == Ids(g.lines, hour, None)
    ensures
      var y, files' := Entered(x, hour, Size(g), ids), files[hour := g];
      Describes(y, files') && Exact(y, files') && y.lengths.Keys == files'.Keys
  {
  }

  lemma ListsOneMore(order: seq<Hour>, keys: set<Hour>, hour: Hour)
    requires Lists(order, keys) && hour !in keys
    ensures Lists(order + [hour], keys + {hour})
  {
    assert hour !in order;
  }

  lemma EnteringKeepsKeys(x: Index, hour: Hour, length: nat, ids: set<Identity>)
    requires SameKeys(x)
    ensures SameKeys(Entered(x, hour, length, ids))
  {
    hide Lists;
    var y := Entered(x, hour, length, ids);
    assert y.lengths.Keys == x.lengths.Keys + {hour} && y.ids.Keys == x.ids.Keys + {hour};
    if hour in x.lengths {
      assert y.lengths.Keys == x.lengths.Keys;
    } else {
      ListsOneMore(x.order, x.lengths.Keys, hour);
    }
  }

  lemma IsOwned(ids: map<Hour, set<Identity>>, hour: Hour, id: Identity)
    requires hour in ids && id in ids[hour]
    ensures Owned(ids, id)
  {
  }

  lemma EnteringOwnsIds(owners: map<Hour, set<Identity>>, hour: Hour, known: set<Identity>, ids: set<Identity>,
                        committed: set<Identity>)
    requires DisjointIds(owners) && (forall id :: id in committed <==> Owned(owners, id)) && ids !! committed
    requires known == if hour in owners then owners[hour] else {}
    ensures
      var after := owners[hour := known + ids];
      DisjointIds(after) && forall id :: id in committed + (known + ids) <==> Owned(after, id)
  {
    var after := owners[hour := known + ids];
    forall h | h in owners && h != hour ensures after[h] == owners[h] && owners[h] !! known + ids {
      assert forall id :: id in owners[h] ==> Owned(owners, id);
    }
    forall id ensures id in committed + (known + ids) <==> Owned(after, id) {
      if id in known + ids {
        assert id in after[hour];
      } else if Owned(owners, id) {
        var h :| h in owners && id in owners[h];
        assert id in after[h];
      }
    }
  }

  lemma EnteringOwns(x: Index, hour: Hour, length: nat, known: set<Identity>, ids: set<Identity>)
    requires SameKeys(x) && Union(x) && ids !! x.committed
    requires known == if hour in x.ids then x.ids[hour] else {}
    ensures
      var y := Entered(x, hour, length, known + ids);
      SameKeys(y) && Union(y) && y.committed == x.committed + ids
  {
    hide SameKeys, DisjointIds, Owned;
    forall id | id in known ensures id in x.committed {
      IsOwned(x.ids, hour, id);
    }
    EnteringOwnsIds(x.ids, hour, known, ids, x.committed);
    EnteringKeepsKeys(x, hour, length, known + ids);
    assert x.committed + (known + ids) == x.committed + ids;
  }

  /** An exact index of every segment owns precisely the identities on disk. */
  lemma OwnedIsOnDisk(x: Index, files: map<Hour, File>)
    requires Union(x) && SameKeys(x) && Exact(x, files) && x.lengths.Keys == files.Keys
    ensures forall id :: id in x.committed <==> OnDisk(files, id)
  {
    forall id ensures Owned(x.ids, id) <==> OnDisk(files, id) {
      if Owned(x.ids, id) {
        var h :| h in x.ids && id in x.ids[h];
        assert h in files && id in Ids(files[h].lines, h, None);
      }
      if OnDisk(files, id) {
        var h :| h in files && id in Ids(files[h].lines, h, None);
        assert id in x.ids[h];
      }
    }
  }

  lemma WritingIndexes(a: Archive, hour: Hour, g: File, known: set<Identity>, ids: set<Identity>)
    requires Matches(a) && !a.deferred && ids !! a.index.committed
    requires known == if hour in a.index.ids then a.index.ids[hour] else {}
    requires TidyLines(g.lines, hour) && !g.torn && Ids(g.lines, hour, None) == known + ids
    ensures
      var y, files := Entered(a.index, hour, Size(g), known + ids), a.disk.files[hour := g];
      && Indexes(y, files) && y.lengths.Keys == files.Keys && Exact(y, files)
      && (forall id :: id in y.committed <==> OnDisk(files, id)) && y.committed == a.index.committed + ids
  {
    hide OnDisk;
    EnteringOwns(a.index, hour, Size(g), known, ids);
    EnteringDescribes(a.index, a.disk.files, hour, g, known + ids);
    OwnedIsOnDisk(Entered(a.index, hour, Size(g), known + ids), a.disk.files[hour := g]);
  }

  /** After a batch is written the index is exact again, and the batch is committed. */
  lemma WrittenBatchIsIndexed(a: Archive, b: Batch)
    requires Matches(a) && !a.deferred && Fit(b) && IdsOf(b.rows) !! a.index.committed
    ensures
      var a' := AppendBatch(a, b, Wrote).0;
      Matches(a') && a'.index.committed == a.index.committed + IdsOf(b.rows)
  {
    var files, x, ids := a.disk.files, a.index, IdsOf(b.rows);
    var f := FileAt(files, b.hour);
    TargetIsClean(a, b.hour, ids);
    ExtendingIsTidy(f, b.rows, b.hour);
    KnownIsOnDisk(a, b.hour);
    var known := if b.hour in x.ids then x.ids[b.hour] else {};
    WritingIndexes(a, b.hour, Extended(f, b.rows), known, ids);
  }

  /** What an append leaves, however it ends: a tidy archive that has only grown. */
  ghost predicate Appended(a: Archive, a': Archive) {
    && Listing(a'.disk) && SameKeys(a'.index) && Tidy(a'.disk.files) && Grows(a.disk.files, a'.disk.files)
    && a'.deferred == a.deferred && a'.recoveryNeeded == a.recoveryNeeded
  }

  lemma AppendedIsFramed(a: Archive, b: Archive, a': Archive)
    requires b == a.(gaps := b.gaps)
    ensures Appended(b, a') == Appended(a, a')
  {
  }

  lemma BatchIsAppended(a: Archive, b: Batch, put: Put)
    requires Listing(a.disk) && Matches(a) && !a.deferred && Fit(b) && IdsOf(b.rows) !! a.index.committed
    ensures
      var (a', fate) := AppendBatch(a, b, put);
      && Appended(a, a') && (fate != Breaks ==> Matches(a'))
      && (fate == Goes ==> a'.index.committed == a.index.committed + IdsOf(b.rows))
  {
    var f := FileAt(a.disk.files, b.hour);
    ExactIsClean(a);
    match put {
      case PutStop => MatchesIsFramed(a, a.(stopping := true));
      case Refused =>
      case Tore(lines, fragment) =>
        TargetIsClean(a, b.hour, IdsOf(b.rows));
        TearingIsTidy(f, b.rows, lines, fragment, b.hour);
        var g := Torn(f, b.rows, lines, fragment);
        var ids: set<Identity> :| ids <= IdsOf(b.rows) && WrittenTo(f, g, b.hour, ids);
        WritingKeepsTidy(a, b.hour, g, ids);
        StoringLists(a.disk, b.hour, g);
      case Wrote =>
        TargetIsClean(a, b.hour, IdsOf(b.rows));
        ExtendingIsTidy(f, b.rows, b.hour);
        WritingKeepsTidy(a, b.hour, Extended(f, b.rows), IdsOf(b.rows));
        StoringLists(a.disk, b.hour, Extended(f, b.rows));
        WrittenBatchIsIndexed(a, b);
    }
  }

  // ---------------------------------------------------------------- every batch

  lemma GrowsTransitive(a: map<Hour, File>, b: map<Hour, File>, c: map<Hour, File>)
    requires Grows(a, b) && Grows(b, c)
    ensures Grows(a, c)
  {
  }

  lemma {:induction false} IdsOfTheFirst(batches: seq<Batch>, k: nat)
    requires WellBatched(batches) && k < |batches|
    ensures WellBatched(batches[k..]) && WellBatched(batches[k + 1..]) && Fit(batches[k])
    ensures IdsOf(batches[k].rows) !! BatchIds(batches[k + 1..])
    ensures BatchIds(batches[k..]) == IdsOf(batches[k].rows) + BatchIds(batches[k + 1..])
  {
    if k == 0 {
      assert batches[0..] == batches;
    } else {
      IdsOfTheFirst(batches[1..], k - 1);
      assert batches[1..][k - 1..] == batches[k..] && batches[1..][k..] == batches[k + 1..];
    }
  }

  lemma {:induction false} BatchesAreAppended(a: Archive, batches: seq<Batch>, k: nat, puts: seq<Put>)
    requires Listing(a.disk) && Matches(a) && !a.deferred && k <= |batches|
    requires WellBatched(batches) && BatchIds(batches) !! a.index.committed
    ensures
      var (a', fate) := AppendTo(a, batches, k, puts);
      && Appended(a, a') && (fate != Breaks ==> Matches(a'))
      && (fate == Goes ==>
            && a'.index.committed + BatchIds(batches[k..]) == a.index.committed + BatchIds(batches)
            && BatchIds(batches[k..]) !! a'.index.committed)
  {
    if k == 0 {
      ExactIsClean(a);
      assert batches[0..] == batches;
    } else {
      BatchesAreAppended(a, batches, k - 1, puts);
      var (before, fate) := AppendTo(a, batches, k - 1, puts);
      IdsOfTheFirst(batches, k - 1);
      if fate == Goes && !before.stopping {
        BatchIsAppended(before, batches[k - 1], At(puts, k - 1, Wrote));
        GrowsTransitive(a.disk.files, before.disk.files, AppendTo(a, batches, k, puts).0.disk.files);
      }
    }
  }

  /** What completing a torn line costs: the line spoils, and the first row of the batch is lost with it. */
  lemma {:induction false} TornTailsSpoil(f: File, rows: seq<Row>)
    requires f.torn && rows != []
    ensures Garbage in Extended(f, rows).lines && |Extended(f, rows).lines| == |f.lines| + |rows|
    ensures Whole(rows[0]) in Extended(f, rows).lines ==> Whole(rows[0]) in f.lines + LinesOf(rows[1..])
  {
    assert Extended(f, rows).lines[|f.lines|] == Garbage;
  }

  lemma DeferredIsKept(a: Archive, a': Archive)
    requires Appended(a, a')
    ensures a'.deferred == a.deferred
  {
  }

  /** It never happens: whenever a flush comes to write a batch, the segment that it goes to ends in a complete line. */
  lemma {:induction false} AppendsLandOnCompleteLines(a: Archive, batches: seq<Batch>, k: nat, puts: seq<Put>)
    requires Listing(a.disk) && Matches(a) && !a.deferred && k < |batches|
    requires WellBatched(batches) && BatchIds(batches) !! a.index.committed
    requires AppendTo(a, batches, k, puts).1 == Goes
    ensures
      var f := FileAt(AppendTo(a, batches, k, puts).0.disk.files, batches[k].hour);
      !f.torn && TidyLines(f.lines, batches[k].hour)
  {
    hide Matches, AppendBatch, Listing, Appended;
    BatchesAreAppended(a, batches, k, puts);
    var before := AppendTo(a, batches, k, puts).0;
    DeferredIsKept(a, before);
    TargetIsClean(before, batches[k].hour, {});
  }

  // ---------------------------------------------------------------- where new rows come from

  function RowsIn(batches: seq<Batch>): set<Row> {
    if batches == [] then {} else (set r | r in batches[0].rows) + RowsIn(batches[1..])
  }

  /** Every line is an old one of the same segment or a whole one of these rows. */
  ghost predicate NewFrom(before: map<Hour, File>, after: map<Hour, File>, rows: set<Row>) {
    forall h, l :: h in after && l in after[h].lines ==>
      (h in before && l in before[h].lines) || (l.Whole? && l.row in rows)
  }

  lemma NewFromTransitive(a: map<Hour, File>, b: map<Hour, File>, c: map<Hour, File>, rows: set<Row>)
    requires NewFrom(a, b, rows) && NewFrom(b, c, rows)
    ensures NewFrom(a, c, rows)
  {
  }

  lemma {:induction false} AddingAddsTheRow(batches: seq<Batch>, row: Row)
    ensures RowsIn(AddTo(batches, row)) == RowsIn(batches) + {row}
  {
    var added := AddTo(batches, row);
    if batches == [] {
      assert added[1..] == [];
    } else if batches[0].hour == HourOf(row.ts) {
      assert added[1..] == batches[1..];
    } else {
      assert added[1..] == AddTo(batches[1..], row);
      AddingAddsTheRow(batches[1..], row);
    }
  }

  predicate Given(rows: seq<Candidate>, r: Row, now: int) {
    exists c :: c in rows && Due(c, now) && c.row == r
  }

  lemma {:induction false} GatheredRowsAreGiven(rows: seq<Candidate>, committed: set<Identity>, now: int)
    ensures forall r :: r in RowsIn(Gather(rows, committed, now).batches) ==> Given(rows, r, now)
  {
    if rows != [] {
      var less, c := rows[..|rows| - 1], rows[|rows| - 1];
      GatheredRowsAreGiven(less, committed, now);
      var before := Gather(less, committed, now);
      AddingAddsTheRow(before.batches, c.row);
      assert forall d :: d in less ==> d in rows;
      if Wanted(before, c, committed, now) {
        assert c in rows && Due(c, now);
      }
    }
  }

  lemma ExtendingAdds(f: File, rows: seq<Row>)
    requires !f.torn
    ensures forall l :: l in Extended(f, rows).lines ==> l in f.lines || (l.Whole? && l.row in rows)
  {
    assert forall i :: 0 <= i < |rows| ==> LinesOf(rows)[i] == Whole(rows[i]);
  }

  lemma BatchRowsAreNew(a: Archive, b: Batch, put: Put)
    requires !FileAt(a.disk.files, b.hour).torn
    ensures NewFrom(a.disk.files, AppendBatch(a, b, put).0.disk.files, set r | r in b.rows)
  {
    var f := FileAt(a.disk.files, b.hour);
    ExtendingAdds(f, b.rows);
    if put.Tore? && put.lines < |b.rows| {
      ExtendingAdds(f, b.rows[..put.lines]);
    }
  }

  lemma {:induction false} BatchIsAmong(batches: seq<Batch>, k: nat)
    requires k < |batches|
    ensures (set r | r in batches[k].rows) <= RowsIn(batches)
  {
    if k > 0 {
      BatchIsAmong(batches[1..], k - 1);
    }
  }

  lemma {:induction false} NewRowsComeFromBatches(a: Archive, batches: seq<Batch>, k: nat, puts: seq<Put>)
    requires Listing(a.disk) && Matches(a) && !a.deferred && k <= |batches|
    requires WellBatched(batches) && BatchIds(batches) !! a.index.committed
    ensures NewFrom(a.disk.files, AppendTo(a, batches, k, puts).0.disk.files, RowsIn(batches))
  {
    hide Matches, AppendBatch, Listing, Appended;
    if k != 0 {
      NewRowsComeFromBatches(a, batches, k - 1, puts);
      BatchesAreAppended(a, batches, k - 1, puts);
      var (before, fate) := AppendTo(a, batches, k - 1, puts);
      if fate == Goes && !before.stopping {
        var b := batches[k - 1];
        BatchIsAmong(batches, k - 1);
        DeferredIsKept(a, before);
        TargetIsClean(before, b.hour, {});
        BatchRowsAreNew(before, b, At(puts, k - 1, Wrote));
        var after := AppendBatch(before, b, At(puts, k - 1, Wrote)).0;
        NewFromTransitive(a.disk.files, before.disk.files, after.disk.files, RowsIn(batches));
      }
    }
  }

  /**
   * The append of a flush: the archive only grows and stays tidy through torn writes, only due rows are new, and a
   * pass that neither breaks nor halts has stored every due row.
   */
  lemma {:induction false} AppendingStoresWhatIsDue(a: Archive, rows: seq<Candidate>, now: int, puts: seq<Put>)
    requires Listing(a.disk) && Matches(a) && !a.deferred
    ensures
      var (a', fate) := Append(a, rows, now, puts);
      && Appended(a, a') && (fate != Breaks ==> Matches(a'))
      && (fate == Goes ==> forall c :: c in rows && Due(c, now) ==> OnDisk(a'.disk.files, c.row.id))
      && (forall h, r :: Holds(a'.disk.files, h, r) ==> Holds(a.disk.files, h, r) || Given(rows, r, now))
  {
    hide Listing, Appended, Exact, Indexes;
    var g := Gather(rows, a.index.committed, now);
    GatheringTakesWhatIsDue(rows, a.index.committed, now);
    var noted := a.(gaps := NoteIf(a.gaps, g.future, DiscardedRecord));
    MatchesIsFramed(a, noted);
    AppendedIsFramed(a, noted, AppendTo(noted, g.batches, |g.batches|, puts).0);
    GatheredRowsAreGiven(rows, a.index.committed, now);
    NewRowsComeFromBatches(noted, g.batches, |g.batches|, puts);
    BatchesAreAppended(noted, g.batches, |g.batches|, puts);
    var (a', fate) := AppendTo(noted, g.batches, |g.batches|, puts);
    assert BatchIds(g.batches[|g.batches|..]) == {};
  }
}
