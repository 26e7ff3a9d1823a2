/** What any sequence of new, replayed and failing recordings does to the tables. */
module DurableHistory {
  import opened Options
  import opened Accounting
  import opened ImportStateStore

  function RecordAll(db: Db, events: seq<Event>): Db {
    if events == [] then db
    else Record(RecordAll(db, events[..|events| - 1]), events[|events| - 1]).0
  }

  /** The tables after each event is inserted once, with no fault and no replay. */
  function InsertAll(db: Db, events: seq<Event>): Db {
    if events == [] then db
    else Inserted(InsertAll(db, events[..|events| - 1]), events[|events| - 1])
  }

  /** Two databases that hold the same tables. */
  predicate SameTables(a: Db, b: Db) {
    a == b.(faults := a.faults)
  }

  lemma InsertOneMore(db: Db, events: seq<Event>, e: Event)
    ensures InsertAll(db, events + [e]) == Inserted(InsertAll(db, events), e)
  {
    assert (events + [e])[..|events|] == events;
  }

  /** Some event opened the day as complete. */
  ghost predicate OpenedBy(events: seq<Event>, d: Day) {
    exists i :: 0 <= i < |events| && d in events[i].completeDays
  }

  lemma InsertedCoverageDegrades(db: Db, e: Event)
    ensures CoverageOnlyDegrades(db.coverage, Inserted(db, e).coverage)
  {
  }

  /** Clean inserts store every unknown day they carry, and know a day only from before or from a complete day. */
  lemma {:induction false} InsertsCover(db: Db, events: seq<Event>)
    ensures
      var after := InsertAll(db, events).coverage;
      && (forall i, d :: 0 <= i < |events| && d in events[i].unknownDays ==> d in after && after[d].unknown)
      && (forall d :: d in after && !after[d].unknown ==>
            (d in db.coverage && !db.coverage[d].unknown) || OpenedBy(events, d))
  {
    if events != [] {
      var shorter, e := events[..|events| - 1], events[|events| - 1];
      InsertsCover(db, shorter);
      var before := InsertAll(db, shorter).coverage;
      InsertedCoverageDegrades(InsertAll(db, shorter), e);
      var after := InsertAll(db, events).coverage;
      assert forall i :: 0 <= i < |shorter| ==> events[i] == shorter[i];
      forall d | d in after && !after[d].unknown && d !in before
        ensures OpenedBy(events, d)
      {
        assert d in events[|events| - 1].completeDays;
      }
      forall d | OpenedBy(shorter, d)
        ensures OpenedBy(events, d)
      {
        var i :| 0 <= i < |shorter| && d in shorter[i].completeDays;
        assert d in events[i].completeDays;
      }
    }
  }

  lemma LinesGrow(db: Db, e: Event, d: Day)
    ensures Lines(Inserted(db, e), d) ==
            Lines(db, d) + if e.day == d then [Line(e.kwh, e.price, e.trusted)] else []
  {
    assert (db.rows + [e])[..|db.rows|] == db.rows;
  }

  lemma {:induction false} InsertsAppendLines(db: Db, events: seq<Event>, d: Day)
    ensures InsertAll(db, events).legacy == db.legacy
    ensures Lines(InsertAll(db, events), d) == Lines(db, d) + EventLines(events, d)
  {
    if events != [] {
      var shorter, e := events[..|events| - 1], events[|events| - 1];
      InsertsAppendLines(db, shorter, d);
      LinesGrow(InsertAll(db, shorter), e, d);
    }
  }

  /** The singleton checkpoint belongs to the newest row. */
  predicate CheckpointIsNewest(db: Db) {
    db.rows != [] ==>
      var newest := db.rows[|db.rows| - 1];
      db.checkpoint == Some(Saved(newest.id, newest.checkpoint))
  }

  /** Every unknown day that a stored row carried is stored as unknown. */
  ghost predicate UnknownDaysStored(db: Db) {
    forall i, d :: 0 <= i < |db.rows| && d in db.rows[i].unknownDays ==>
      d in db.coverage && db.coverage[d].unknown
  }

  /** Stored coverage of a day only moves from absent to known or unknown, and from known to unknown. */
  ghost predicate CoverageOnlyDegrades(before: map<Day, Coverage>, after: map<Day, Coverage>) {
    && before.Keys <= after.Keys
    && (forall d :: d in before && before[d].unknown ==> after[d] == before[d])
    && (forall d :: d in before && !after[d].unknown ==> after[d] == before[d])
  }

  predicate PriceAtLeast(after: Option<real>, before: Option<real>) {
    before.Some? ==> after.Some? && after.value >= before.value
  }

  // ---------------------------------------------------------------- one recording

  lemma HighestOfMore(lines: seq<Line>, more: Line)
    ensures PriceAtLeast(Highest(lines + [more]), Highest(lines))
  {
    assert (lines + [more])[..|lines|] == lines;
  }

  lemma TotalOfMore(lines: seq<Line>, more: Line)
    ensures Total(lines + [more]) == Total(lines) + Max0(more.kwh)
  {
    assert (lines + [more])[..|lines|] == lines;
  }

  /** What one call leaves: the same tables, or exactly one more row and everything that goes with it. */
  lemma RecordStep(db: Db, e: Event)
    ensures
      var after := Record(db, e).0;
      && (after == db.(faults := after.faults) ||
          (!HasRow(db.rows, e.id) && after == Inserted(db, e).(faults := after.faults)))
      && (Record(db, e).1 == Done ==> e in after.rows)
  {
    var after := Record(db, e).0;
    if !HasRow(db.rows, e.id) && Record(db, e).1 == Done {
      assert after.rows[|db.rows|] == e;
    }
  }

  lemma RecordingKeepsRowsUnique(db: Db, e: Event)
    requires UniqueIds(db.rows) && CheckpointIsNewest(db) && UnknownDaysStored(db)
    ensures
      var after := Record(db, e).0;
      && UniqueIds(after.rows) && CheckpointIsNewest(after) && UnknownDaysStored(after)
      && (after.rows == db.rows || after.rows == db.rows + [e]) && db.legacy == after.legacy
  {
    hide Record;
    RecordStep(db, e);
  }

  // ---------------------------------------------------------------- whole histories

  lemma {:induction false} HistoryKeepsRowsUnique(db: Db, events: seq<Event>)
    requires UniqueIds(db.rows) && CheckpointIsNewest(db) && UnknownDaysStored(db)
    ensures
      var after := RecordAll(db, events);
      && UniqueIds(after.rows) && CheckpointIsNewest(after) && UnknownDaysStored(after)
      && db.rows <= after.rows && db.legacy == after.legacy
      && (forall i :: |db.rows| <= i < |after.rows| ==> after.rows[i] in events)
  {
    hide Record, UniqueIds, CheckpointIsNewest, UnknownDaysStored;
    if events != [] {
      var shorter := events[..|events| - 1];
      HistoryKeepsRowsUnique(db, shorter);
      RecordingKeepsRowsUnique(RecordAll(db, shorter), events[|events| - 1]);
    }
  }

  lemma RecordDegradesCoverage(db: Db, e: Event)
    ensures CoverageOnlyDegrades(db.coverage, Record(db, e).0.coverage)
  {
    RecordStep(db, e);
    InsertedCoverageDegrades(db, e);
  }

  lemma {:induction false} HistoryOnlyDegradesCoverage(db: Db, events: seq<Event>)
    ensures CoverageOnlyDegrades(db.coverage, RecordAll(db, events).coverage)
  {
    if events != [] {
      var before := RecordAll(db, events[..|events| - 1]);
      HistoryOnlyDegradesCoverage(db, events[..|events| - 1]);
      RecordDegradesCoverage(before, events[|events| - 1]);
    }
  }

  ghost predicate FloorHeld(before: Summary, after: Summary) {
    && PriceAtLeast(after.highestPrice, before.highestPrice)
    && after.totalKwh >= before.totalKwh
    && (before.floorUnknown ==> after.floorUnknown)
  }

  lemma LinesAfterRecord(db: Db, e: Event, d: Day)
    ensures
      var after := Record(db, e).0;
      || Lines(after, d) == Lines(db, d)
      || Lines(after, d) == Lines(db, d) + [Line(e.kwh, e.price, e.trusted)]
  {
    RecordStep(db, e);
    LinesGrow(db, e, d);
  }

  lemma MoreLinesHoldTheFloor(lines: seq<Line>, line: Line)
    ensures
      var after := lines + [line];
      && PriceAtLeast(Highest(after), Highest(lines)) && Total(after) >= Total(lines)
      && (HasUnpriced(lines) ==> HasUnpriced(after))
  {
    HighestOfMore(lines, line);
    TotalOfMore(lines, line);
    if HasUnpriced(lines) {
      var i :| 0 <= i < |lines| && Unpriced(lines[i]);
      assert Unpriced((lines + [line])[i]);
    }
  }

  lemma FloorFromLines(db: Db, after: Db, d: Day, line: Line)
    requires Lines(after, d) == Lines(db, d) || Lines(after, d) == Lines(db, d) + [line]
    requires CoverageOnlyDegrades(db.coverage, after.coverage)
    ensures FloorHeld(Summarize(db, d), Summarize(after, d))
  {
    MoreLinesHoldTheFloor(Lines(db, d), line);
  }

  lemma RecordHoldsTheFloor(db: Db, e: Event, d: Day)
    ensures FloorHeld(Summarize(db, d), Summarize(Record(db, e).0, d))
  {
    LinesAfterRecord(db, e, d);
    RecordDegradesCoverage(db, e);
    FloorFromLines(db, Record(db, e).0, d, Line(e.kwh, e.price, e.trusted));
  }

  /** Neither the total nor the highest trusted price of a day can fall, so a cost floor is never lowered by replay. */
  lemma {:induction false} HistoryNeverLowersTheFloor(db: Db, events: seq<Event>, d: Day)
    ensures FloorHeld(Summarize(db, d), Summarize(RecordAll(db, events), d))
  {
    if events != [] {
      var shorter := events[..|events| - 1];
      HistoryNeverLowersTheFloor(db, shorter, d);
      RecordHoldsTheFloor(RecordAll(db, shorter), events[|events| - 1], d);
    }
  }

  /** A replay of a stored row changes no table, however often and with whatever faults it is delivered. */
  lemma {:induction false} ReplayChangesNothing(db: Db, events: seq<Event>)
    requires forall i :: 0 <= i < |events| ==> events[i] in db.rows
    ensures
      var after := RecordAll(db, events);
      after == db.(faults := after.faults)
  {
    if events != [] {
      var shorter, e := events[..|events| - 1], events[|events| - 1];
      assert forall i :: 0 <= i < |shorter| ==> shorter[i] == events[i];
      ReplayChangesNothing(db, shorter);
      assert e in db.rows;
      var i :| 0 <= i < |db.rows| && db.rows[i] == e;
      assert HasRow(RecordAll(db, shorter).rows, e.id);
    }
  }
}
