/** The durable side of import accounting: interval, checkpoint and coverage tables. */
module ImportStateStore {
  import opened Options
  import opened Accounting

  /** What the environment does to the next database call. */
  datatype Fault = NoFault | BeforeCommit | AfterCommit

  datatype Topup = Topup(day: Day, kwh: real, price: Option<real>, trusted: bool)

  datatype Coverage = Coverage(unknown: bool, reason: Reason)

  datatype Saved = Saved(id: EventId, checkpoint: Checkpoint)

  /** The tables, with the faults that later calls will meet; calls after the script's end succeed. */
  datatype Db = Db(
    legacy: seq<Topup>, rows: seq<Event>, checkpoint: Option<Saved>,
    coverage: map<Day, Coverage>, faults: seq<Fault>)

  function NextFault(faults: seq<Fault>): Fault {
    if faults == [] then NoFault else faults[0]
  }

  function Consume(faults: seq<Fault>): seq<Fault> {
    if faults == [] then [] else faults[1..]
  }

  // ---------------------------------------------------------------- recording one interval

  predicate HasRow(rows: seq<Event>, id: EventId) {
    exists i :: 0 <= i < |rows| && rows[i].id == id
  }

  /** The event ID is the table's primary key. */
  predicate UniqueIds(rows: seq<Event>) {
    forall i, j :: 0 <= i < j < |rows| ==> rows[i].id != rows[j].id
  }

  predicate ValidEvent(e: Event) {
    e.kwh >= 0.0 && (e.trusted ==> e.price.Some?)
  }

  /** The coverage that a newly inserted event leaves for one day. */
  function CoverDay(coverage: map<Day, Coverage>, e: Event, d: Day): Coverage {
    if d in e.unknownDays then
      if d in coverage && coverage[d].unknown then coverage[d] else Coverage(true, e.unknownDays[d])
    else if d in coverage then coverage[d]
    else if d in e.completeDays then Coverage(false, ContinuousCoverage)
    else Coverage(true, CoverageNotProven)
  }

  function Covered(coverage: map<Day, Coverage>, e: Event): map<Day, Coverage> {
    map d | d in coverage.Keys + e.unknownDays.Keys + (set c | c in e.completeDays) + {e.day} ::
      CoverDay(coverage, e, d)
  }

  /** The tables after an insert of e commits. */
  function Inserted(db: Db, e: Event): Db {
    db.(rows := db.rows + [e], checkpoint := Some(Saved(e.id, e.checkpoint)), coverage := Covered(db.coverage, e))
  }

  function Record(db: Db, e: Event): (Db, Outcome) {
    if !ValidEvent(e) then (db, Raised(InvalidEvent))
    else
      var fault := NextFault(db.faults);
      var rest := db.(faults := Consume(db.faults));
      if fault == BeforeCommit then (rest, Raised(DatabaseFailure))
      else if HasRow(db.rows, e.id) then
        if e !in db.rows then (rest, Raised(EventIdReused))
        else (rest, if fault == NoFault then Done else Raised(DatabaseFailure))
      else (Inserted(rest, e), if fault == NoFault then Done else Raised(DatabaseFailure))
  }

  // ---------------------------------------------------------------- reading

  datatype Line = Line(kwh: real, price: Option<real>, trusted: bool)

  const SIGNIFICANT_KWH: real := 0.01

  function TopupLines(topups: seq<Topup>, d: Day): seq<Line> {
    if topups == [] then []
    else
      var last := topups[|topups| - 1];
      TopupLines(topups[..|topups| - 1], d) +
      if last.day == d then [Line(last.kwh, last.price, last.trusted)] else []
  }

  function EventLines(rows: seq<Event>, d: Day): seq<Line> {
    if rows == [] then []
    else
      var last := rows[|rows| - 1];
      EventLines(rows[..|rows| - 1], d) +
      if last.day == d then [Line(last.kwh, last.price, last.trusted)] else []
  }

  function Lines(db: Db, d: Day): seq<Line> {
    TopupLines(db.legacy, d) + EventLines(db.rows, d)
  }

  function Total(lines: seq<Line>): real {
    if lines == [] then 0.0 else Total(lines[..|lines| - 1]) + Max0(lines[|lines| - 1].kwh)
  }

  predicate Priced(line: Line) {
    line.kwh >= SIGNIFICANT_KWH && line.trusted && line.price.Some?
  }

  predicate Unpriced(line: Line) {
    line.kwh >= SIGNIFICANT_KWH && !Priced(line)
  }

  /** The dearest trusted price of a significant import, said without reference to any loop. */
  ghost predicate IsHighest(lines: seq<Line>, highest: Option<real>) {
    match highest
    case None => forall i :: 0 <= i < |lines| ==> !Priced(lines[i])
    case Some(p) =>
      && (exists i :: 0 <= i < |lines| && Priced(lines[i]) && lines[i].price.value == p)
      && (forall i :: 0 <= i < |lines| && Priced(lines[i]) ==> lines[i].price.value <= p)
  }

  function Highest(lines: seq<Line>): (r: Option<real>)
    ensures IsHighest(lines, r)
  {
    if lines == [] then None
    else
      var before := Highest(lines[..|lines| - 1]);
      var last := lines[|lines| - 1];
      assert forall i :: 0 <= i < |lines| - 1 ==> lines[i] == lines[..|lines| - 1][i];
      if Priced(last) && (before.None? || last.price.value > before.value) then
        assert lines[|lines| - 1].price.value == last.price.value;
        last.price
      else before
  }

  lemma HighestIsUnique(lines: seq<Line>, a: Option<real>, b: Option<real>)
    requires IsHighest(lines, a) && IsHighest(lines, b)
    ensures a == b
  {
  }

  predicate HasUnpriced(lines: seq<Line>) {
    exists i :: 0 <= i < |lines| && Unpriced(lines[i])
  }

  lemma NoLines()
    ensures Total([]) == 0.0 && IsHighest([], None) && !HasUnpriced([])
  {
  }

  lemma NextTotal(before: seq<Line>, line: Line)
    ensures Total(before + [line]) == Total(before) + Max0(line.kwh)
  {
    assert (before + [line])[..|before|] == before;
  }

  lemma NextUnpriced(before: seq<Line>, line: Line)
    ensures HasUnpriced(before + [line]) <==> HasUnpriced(before) || Unpriced(line)
  {
    var lines := before + [line];
    assert lines[|before|] == line && forall i :: 0 <= i < |before| ==> lines[i] == before[i];
  }

  lemma NextHighest(before: seq<Line>, line: Line, highest: Option<real>)
    requires IsHighest(before, highest)
    ensures
      var dearer := Priced(line) && (highest.None? || line.price.value > highest.value);
      IsHighest(before + [line], if dearer then line.price else highest)
  {
    var lines := before + [line];
    assert lines[|before|] == line && forall i :: 0 <= i < |before| ==> lines[i] == before[i];
    if highest.Some? {
      var i :| 0 <= i < |before| && Priced(before[i]) && before[i].price.value == highest.value;
      assert lines[i] == before[i];
    }
  }

  function Summarize(db: Db, d: Day): Summary {
    var lines := Lines(db, d);
    var unknown := HasUnpriced(lines) || (d in db.coverage && db.coverage[d].unknown);
    Summary(d, Total(lines), Highest(lines), Highest(lines), !unknown, unknown,
            d in db.coverage && !db.coverage[d].unknown,
            if d in db.coverage then db.coverage[d].reason else CoverageNotRecorded)
  }

  lemma CoveredIs(before: map<Day, Coverage>, e: Event, marked: map<Day, Coverage>, after: map<Day, Coverage>)
    requires marked.Keys == before.Keys + e.unknownDays.Keys
    requires forall d :: d in marked ==> marked[d] == if d in e.unknownDays then CoverDay(before, e, d) else before[d]
    requires after.Keys == marked.Keys + (set c | c in e.completeDays) + {e.day}
    requires forall d :: d in after ==>
      after[d] ==
      if d in marked then marked[d]
      else if d in e.completeDays then Coverage(false, ContinuousCoverage)
      else Coverage(true, CoverageNotProven)
    ensures after == Covered(before, e)
  {
    forall d | d in after
      ensures after[d] == CoverDay(before, e, d)
    {
    }
  }

  // ---------------------------------------------------------------- the store object

  class StateStore {
    var legacy: seq<Topup>
    var rows: seq<Event>
    var checkpoint: Option<Saved>
    var coverage: map<Day, Coverage>
    var faults: seq<Fault>  // the environment's script, consumed one entry a call

    function View(): Db
      reads this
    {
      Db(legacy, rows, checkpoint, coverage, faults)
    }

    constructor (db: Db)
      ensures View() == db
    {
      legacy, rows, checkpoint, coverage, faults := db.legacy, db.rows, db.checkpoint, db.coverage, db.faults;
    }

    method TakeFault() returns (fault: Fault)
      modifies this`faults
      ensures fault == NextFault(old(faults)) && faults == Consume(old(faults))
    {
      if faults == [] {
        fault := NoFault;
      } else {
        fault, faults := faults[0], faults[1..];
      }
    }

    /** One transaction: look the event up, insert it, advance the checkpoint and merge its coverage. */
    method RecordInterval(e: Event) returns (outcome: Outcome)
      modifies this
      ensures (View(), outcome) == Record(old(View()), e)
    {
      if !(e.kwh >= 0.0) || (e.trusted && e.price.None?) {
        return Raised(InvalidEvent);
      }
      var fault := TakeFault();
      var before := View();
      if HasRow(rows, e.id) {
        if fault == BeforeCommit {
          return Raised(DatabaseFailure);
        } else if e !in rows {
          return Raised(EventIdReused);
        }
        return if fault == NoFault then Done else Raised(DatabaseFailure);
      }
      rows := rows + [e];
      checkpoint := Some(Saved(e.id, e.checkpoint));
      MergeCoverage(e);
      if fault == BeforeCommit {
        legacy, rows, checkpoint, coverage := before.legacy, before.rows, before.checkpoint, before.coverage;
        return Raised(DatabaseFailure);
      }
      return if fault == NoFault then Done else Raised(DatabaseFailure);
    }

    /** The three upserts of the coverage table, in the order the transaction makes them. */
    method MergeCoverage(e: Event)
      modifies this`coverage
      ensures coverage == Covered(old(coverage), e)
    {
      MarkUnknownDays(e);
      ghost var marked := coverage;
      for i := 0 to |e.completeDays|
        invariant coverage.Keys == marked.Keys + (set c | c in e.completeDays[..i])
        invariant forall d :: d in coverage ==>
          coverage[d] == if d in marked then marked[d] else Coverage(false, ContinuousCoverage)
      {
        var d := e.completeDays[i];
        if d !in coverage {
          coverage := coverage[d := Coverage(false, ContinuousCoverage)];
        }
        assert e.completeDays[..i + 1] == e.completeDays[..i] + [d];
      }
      assert e.completeDays[..|e.completeDays|] == e.completeDays;
      if e.day !in e.completeDays && e.day !in coverage {
        coverage := coverage[e.day := Coverage(true, CoverageNotProven)];
      }
      CoveredIs(old(coverage), e, marked, coverage);
    }

    method MarkUnknownDays(e: Event)
      modifies this`coverage
      ensures coverage.Keys == old(coverage).Keys + e.unknownDays.Keys
      ensures forall d :: d in coverage ==>
        coverage[d] ==
        if d in e.unknownDays then CoverDay(old(coverage), e, d) else old(coverage)[d]
    {
      var todo := e.unknownDays.Keys;
      while todo != {}
        invariant todo <= e.unknownDays.Keys
        invariant coverage.Keys == old(coverage).Keys + (e.unknownDays.Keys - todo)
        invariant forall d :: d in coverage ==>
          coverage[d] ==
          if d in e.unknownDays && d !in todo then CoverDay(old(coverage), e, d) else old(coverage)[d]
        decreases todo
      {
        var d :| d in todo;
        var reason := if d in coverage && coverage[d].unknown then coverage[d].reason else e.unknownDays[d];
        coverage := coverage[d := Coverage(true, reason)];
        todo := todo - {d};
      }
    }

    method GetCheckpoint() returns (ok: bool, saved: Option<Saved>)
      modifies this`faults
      ensures faults == Consume(old(faults))
      ensures ok <==> NextFault(old(faults)) == NoFault
      ensures saved == if ok then checkpoint else None
    {
      var fault := TakeFault();
      ok := fault == NoFault;
      saved := if ok then checkpoint else None;
    }

    /** The running-total loop over the day's rows. */
    method ImportTopupSummary(d: Day) returns (ok: bool, summary: Summary)
      modifies this`faults
      ensures faults == Consume(old(faults))
      ensures ok <==> NextFault(old(faults)) == NoFault
      ensures summary == Summarize(old(View()), d)
    {
      var fault := TakeFault();
      ok := fault == NoFault;
      var lines := Lines(View(), d);
      var total, highest, untrusted := 0.0, None, false;
      NoLines();
      hide Total, IsHighest, HasUnpriced, Highest;
      for i := 0 to |lines|
        invariant faults == Consume(old(faults)) && total == Total(lines[..i])
        invariant IsHighest(lines[..i], highest)
        invariant untrusted == HasUnpriced(lines[..i])
      {
        var line := lines[i];
        var kwh := Max0(line.kwh);
        assert lines[..i + 1] == lines[..i] + [line];
        NextTotal(lines[..i], line);
        NextUnpriced(lines[..i], line);
        NextHighest(lines[..i], line, highest);
        total := total + kwh;
        if kwh >= SIGNIFICANT_KWH {
          if !line.trusted || line.price.None? {
            untrusted := true;
          } else if highest.None? || line.price.value > highest.value {
            highest := line.price;
          }
        }
      }
      assert lines[..|lines|] == lines;
      HighestIsUnique(lines, highest, Highest(lines));
      var covered := d in coverage;
      var unknown := untrusted || (covered && coverage[d].unknown);
      summary := Summary(d, total, highest, highest, !unknown, unknown, covered && !coverage[d].unknown,
                         if covered then coverage[d].reason else CoverageNotRecorded);
    }
  }
}
