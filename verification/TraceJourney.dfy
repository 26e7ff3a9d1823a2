/** The event loop and the archive in one run: where each row ever pushed to the live deque has gone. */
module TraceJourney {
  import opened Options
  import opened TraceClock
  import opened TraceArchiveSpec
  import opened TraceRecovery
  import opened TraceAppending
  import opened TraceFlushing
  import opened TraceConfirmation
  import opened TraceDownloadSpec
  import opened TraceViews
  import Capture = TraceCaptureSpec

  /** What a process starts from, and the time that each row it will push carries. */
  datatype World = World(disk: Disk, clock: Clock, history: seq<Epoch>, session: nat,
                         time: Capture.RowRef -> int)
  datatype Journey = Journey(system: System, observer: Capture.Observer)

  /** How a copy serializes: its contents, and whether they fit the size limit. */
  datatype Written = Written(body: nat, fits: bool)

  /**
   * A row pushed; one pass of the archive's loop, which captures and hands the copies to a flush unless the workers are
   * busy; or any step of the downloads, a stop, or a flush without rows.
   */
  datatype Event =
    | Pushed
    | Cycle(admitted: bool, written: seq<Written>, now: int, weather: Weather)
    | Served(op: Op)

  function SequencesOf(confirmed: set<Identity>, session: nat): set<int> {
    set id | id in confirmed && id.session == session :: id.sequence
  }

  function Record(w: World, c: Capture.Copy, body: nat): Row {
    Row(Identity(w.session, c.sequence), w.time(c.row), body)
  }

  function Records(w: World, copies: seq<Capture.Copy>, written: seq<Written>): seq<Candidate> {
    seq(|copies|, i requires 0 <= i < |copies| =>
      var text := At(written, i, Written(0, true));
      Candidate(Record(w, copies[i], text.body), text.fits))
  }

  function Capturing(w: World, j: Journey): (Capture.Observer, seq<Capture.Copy>) {
    var a := j.system.desk.archive;
    Capture.Capture(j.observer, a.clock.uncertain, SequencesOf(a.confirmed, w.session))
  }

  predicate Serves(op: Op) {
    !op.RestartOp? && (op.FlushOp? ==> op.rows == [])
  }

  function Step(w: World, j: Journey, e: Event): Journey {
    match e
    case Pushed => j.(observer := Capture.Push(j.observer))
    case Cycle(admitted, written, now, weather) =>
      var (observer, copies) := Capturing(w, j);
      var flush := FlushOp(Records(w, copies, written), now, weather);
      Journey(if admitted then Apply(j.system, flush) else j.system, observer)
    case Served(op) => if Serves(op) then j.(system := Apply(j.system, op)) else j
  }

  function After(w: World, events: seq<Event>): Journey {
    if events == [] then Journey(Booted(w.disk, w.clock, w.history), Capture.EMPTY)
    else Step(w, After(w, events[..|events| - 1]), events[|events| - 1])
  }

  function FilesOf(j: Journey): map<Hour, File> {
    j.system.desk.archive.disk.files
  }

  /** Nothing on disk carries this process's session yet. */
  ghost predicate Fresh(w: World) {
    Listing(w.disk) && forall h, r :: Holds(w.disk.files, h, r) ==> r.id.session != w.session
  }

  // ---------------------------------------------------------------- what one step does to the disk

  lemma CyclesDisk(w: World, j: Journey, e: Event)
    requires e.Cycle? && e.admitted
    ensures
      var copies := Capturing(w, j).1;
      Step(w, j, e).system.desk.archive ==
      Flush(j.system.desk.archive, Records(w, copies, e.written), e.now, e.weather).0
  {
  }

  lemma RecoveringInventsNothing(before: map<Hour, File>, after: map<Hour, File>, h: Hour, r: Row)
    requires Recovers(before, after) && Holds(after, h, r)
    ensures Holds(before, h, r)
  {
  }

  /** A flush writes nothing but the rows that it was given. */
  lemma FlushWritesGiven(a: Archive, rows: seq<Candidate>, now: int, weather: Weather, h: Hour, r: Row)
    requires Sound(a) && Holds(Flush(a, rows, now, weather).0.disk.files, h, r)
    ensures Holds(a.disk.files, h, r) || exists c :: c in rows && c.row == r
  {
    hide Sound, Flush, Judge, Recovers, Due;
    if !a.stopping && Judge(a, now, weather).1.Acts? {
      FlushActs(a, rows, now, weather);
      var t := Judge(a, now, weather).1.now;
      if Given(rows, r, t) {
        var c :| c in rows && Due(c, t) && c.row == r;
      }
    } else {
      IdleFlushKeepsEveryRow(a, rows, now, weather);
      RecoveringInventsNothing(a.disk.files, Flush(a, rows, now, weather).0.disk.files, h, r);
    }
  }

  lemma ServingWritesNothing(s: System, op: Op, h: Hour, r: Row)
    requires Sound(s.desk.archive) && Serves(op) && Holds(Apply(s, op).desk.archive.disk.files, h, r)
    ensures Holds(s.desk.archive.disk.files, h, r)
  {
    hide Sound, Flush, Open, Read, Close;
    match op {
      case FlushOp(rows, now, weather) => FlushWritesGiven(s.desk.archive, rows, now, weather, h, r);
      case OpenOp(opening) => OpeningTouchesNothing(s.desk, opening);
      case ReadOp(i) =>
        if i < |s.views| {
          ReadingTouchesNothing(s.desk, s.views[i]);
        }
      case CloseOp(i) =>
        if i < |s.views| {
          ClosingTouchesNothing(s.desk, s.views[i]);
        }
      case _ =>
    }
  }

  lemma ServingConfirms(s: System, op: Op)
    requires Sound(s.desk.archive) && Serves(op)
    ensures Confirms(s.desk.archive, Apply(s, op).desk.archive)
  {
    hide Sound, Flush, OnDisk, PinAll, UnpinAll, Found, Openable;
    match op {
      case FlushOp(rows, now, weather) => FlushConfirms(s.desk.archive, rows, now, weather);
      case _ =>
    }
  }

  // ---------------------------------------------------------------- the rows of this session

  /** A row that the observer numbered, under its number and at its time. */
  ghost predicate IsRecordOf(w: World, given: map<Capture.RowRef, nat>, row: Capture.RowRef, r: Row) {
    row in given && r.id == Identity(w.session, given[row]) && r.ts == w.time(row)
  }

  /** Every row of this session on disk is the record of a numbered row. */
  ghost predicate Genuine(w: World, given: map<Capture.RowRef, nat>, files: map<Hour, File>) {
    forall h, r :: Holds(files, h, r) && r.id.session == w.session ==> exists row :: IsRecordOf(w, given, row, r)
  }

  ghost predicate SameNumbers(given: map<Capture.RowRef, nat>, later: map<Capture.RowRef, nat>) {
    forall r :: r in given ==> r in later && later[r] == given[r]
  }

  lemma GenuineLater(w: World, given: map<Capture.RowRef, nat>, later: map<Capture.RowRef, nat>,
                     files: map<Hour, File>)
    requires Genuine(w, given, files) && SameNumbers(given, later)
    ensures Genuine(w, later, files)
  {
    forall h, r | Holds(files, h, r) && r.id.session == w.session ensures exists row :: IsRecordOf(w, later, row, r) {
      var row :| IsRecordOf(w, given, row, r);
      assert IsRecordOf(w, later, row, r);
    }
  }

  lemma CapturingKeepsGiven(o: Capture.Observer, uncertain: bool, confirmed: set<int>)
    requires Capture.Inv(o)
    ensures
      var (p, copies) := Capture.Capture(o, uncertain, confirmed);
      && SameNumbers(o.given, p.given)
      && forall c :: c in copies ==> c.row in p.given && p.given[c.row] == c.sequence
  {
    hide Capture.Numbers, Capture.NumberTo, Capture.Overflows, Capture.Numbered;
    if !uncertain {
      Capture.InvIsReady(o);
      Capture.NumberingNumbers(o, |o.deque|, confirmed);
      Capture.NumberingExtends(o, Capture.NumberTo(o, |o.deque|, confirmed));
      Capture.CopiesAreUnconfirmed(o, |o.deque|, confirmed);
    }
  }

  lemma RecordsAreGenuine(w: World, given: map<Capture.RowRef, nat>, copies: seq<Capture.Copy>, written: seq<Written>,
                          c: Candidate)
    requires forall k :: k in copies ==> k.row in given && given[k.row] == k.sequence
    requires c in Records(w, copies, written)
    ensures exists row :: IsRecordOf(w, given, row, c.row)
  {
    var i :| 0 <= i < |copies| && Records(w, copies, written)[i] == c;
    assert copies[i] in copies;
    assert IsRecordOf(w, given, copies[i].row, c.row);
  }

  // ---------------------------------------------------------------- the invariant of a run

  /** The identity has been on disk after one of the steps so far. */
  ghost predicate Seen(w: World, events: seq<Event>, id: Identity) {
    exists k: nat :: k <= |events| && OnDisk(FilesOf(After(w, events[..k])), id)
  }

  ghost predicate AllSeen(w: World, events: seq<Event>, ids: set<Identity>) {
    forall id :: id in ids ==> Seen(w, events, id)
  }

  /** What the observer was told is durable. */
  ghost predicate ToldSeen(w: World, events: seq<Event>, durable: set<int>) {
    forall n :: n in durable ==> n >= 0 && Seen(w, events, Identity(w.session, n))
  }

  ghost predicate Honest(w: World, events: seq<Event>) {
    var j := After(w, events);
    && Capture.Inv(j.observer) && Sound(j.system.desk.archive) && Genuine(w, j.observer.given, FilesOf(j))
    && AllSeen(w, events, j.system.desk.archive.confirmed) && ToldSeen(w, events, j.observer.durable)
  }

  lemma SeenLater(w: World, events: seq<Event>, id: Identity)
    requires events != [] && Seen(w, events[..|events| - 1], id)
    ensures Seen(w, events, id)
  {
    hide After, OnDisk;
    var less := events[..|events| - 1];
    var k: nat :| k <= |less| && OnDisk(FilesOf(After(w, less[..k])), id);
    assert less[..k] == events[..k];
  }

  lemma SeenNow(w: World, events: seq<Event>, id: Identity)
    requires OnDisk(FilesOf(After(w, events)), id)
    ensures Seen(w, events, id)
  {
    hide After, OnDisk;
    assert events[..|events|] == events;
  }

  lemma ConfirmedIsSeen(w: World, events: seq<Event>)
    requires events != []
    requires
      var a, b := After(w, events[..|events| - 1]).system.desk.archive, After(w, events).system.desk.archive;
      AllSeen(w, events[..|events| - 1], a.confirmed) && Confirms(a, b)
    ensures AllSeen(w, events, After(w, events).system.desk.archive.confirmed)
  {
    hide After, OnDisk, Seen;
    var less := events[..|events| - 1];
    var a, b := After(w, less).system.desk.archive, After(w, events).system.desk.archive;
    forall id | id in b.confirmed ensures Seen(w, events, id) {
      if OnDisk(b.disk.files, id) {
        SeenNow(w, events, id);
      } else {
        if OnDisk(a.disk.files, id) {
          SeenNow(w, less, id);
        }
        SeenLater(w, events, id);
      }
    }
  }

  lemma ToldIsSeen(w: World, events: seq<Event>)
    requires events != []
    requires
      var j, i := After(w, events[..|events| - 1]), After(w, events);
      && AllSeen(w, events[..|events| - 1], j.system.desk.archive.confirmed)
      && ToldSeen(w, events[..|events| - 1], j.observer.durable)
      && i.observer.durable <= j.observer.durable + SequencesOf(j.system.desk.archive.confirmed, w.session)
    ensures ToldSeen(w, events, After(w, events).observer.durable)
  {
    hide After, Seen;
    var less := events[..|events| - 1];
    forall n | n in After(w, events).observer.durable
      ensures n >= 0 && Seen(w, events, Identity(w.session, n))
    {
      SeenLater(w, events, Identity(w.session, n));
    }
  }

  lemma BootIsHonest(w: World)
    requires Fresh(w)
    ensures Honest(w, [])
  {
    BootedIsOrderly(w.disk, w.clock, w.history);
  }

  /** What one step keeps, apart from what has been seen on disk. */
  ghost predicate Proceeds(w: World, j: Journey, i: Journey) {
    && Capture.Inv(i.observer) && Sound(i.system.desk.archive) && Genuine(w, i.observer.given, FilesOf(i))
    && SameNumbers(j.observer.given, i.observer.given)
    && Confirms(j.system.desk.archive, i.system.desk.archive)
    && i.observer.durable <= j.observer.durable + SequencesOf(j.system.desk.archive.confirmed, w.session)
  }

  lemma ConfirmsItself(a: Archive)
    ensures Confirms(a, a)
  {
  }

  lemma PushProceeds(w: World, j: Journey)
    requires Capture.Inv(j.observer) && Sound(j.system.desk.archive) && Genuine(w, j.observer.given, FilesOf(j))
    ensures Proceeds(w, j, Step(w, j, Pushed))
  {
    hide Capture.Inv, Sound, Genuine, Confirms;
    Capture.PushKeepsInv(j.observer);
    ConfirmsItself(j.system.desk.archive);
  }

  lemma ServingProceeds(w: World, j: Journey, op: Op)
    requires Capture.Inv(j.observer) && Sound(j.system.desk.archive) && Genuine(w, j.observer.given, FilesOf(j))
    ensures Proceeds(w, j, Step(w, j, Served(op)))
  {
    hide Capture.Inv, Sound, Confirms, Apply, IsRecordOf;
    ConfirmsItself(j.system.desk.archive);
    if Serves(op) {
      StepKeepsTheArchive(j.system, op);
      ServingConfirms(j.system, op);
      var i := Step(w, j, Served(op));
      forall h, r | Holds(FilesOf(i), h, r) ensures Holds(FilesOf(j), h, r) {
        ServingWritesNothing(j.system, op, h, r);
      }
    }
  }

  lemma CycleProceeds(w: World, j: Journey, e: Event)
    requires e.Cycle?
    requires Capture.Inv(j.observer) && Sound(j.system.desk.archive) && Genuine(w, j.observer.given, FilesOf(j))
    ensures Proceeds(w, j, Step(w, j, e))
  {
    hide Capture.Inv, Sound, Confirms, Flush, IsRecordOf, Capture.NumberTo, Capture.Overflows;
    var a := j.system.desk.archive;
    var told := SequencesOf(a.confirmed, w.session);
    var (o, copies) := Capturing(w, j);
    Capture.CaptureKeepsInv(j.observer, a.clock.uncertain, told);
    CapturingKeepsGiven(j.observer, a.clock.uncertain, told);
    GenuineLater(w, j.observer.given, o.given, FilesOf(j));
    ConfirmsItself(a);
    var i := Step(w, j, e);
    if e.admitted {
      var rows := Records(w, copies, e.written);
      CyclesDisk(w, j, e);
      FlushKeepsTheArchive(a, rows, e.now, e.weather);
      FlushConfirms(a, rows, e.now, e.weather);
      forall h, r | Holds(FilesOf(i), h, r) && r.id.session == w.session
        ensures exists row :: IsRecordOf(w, o.given, row, r)
      {
        FlushWritesGiven(a, rows, e.now, e.weather, h, r);
        if !Holds(FilesOf(j), h, r) {
          var c :| c in rows && c.row == r;
          RecordsAreGenuine(w, o.given, copies, e.written, c);
        }
      }
    }
  }

  lemma StepProceeds(w: World, j: Journey, e: Event)
    requires Capture.Inv(j.observer) && Sound(j.system.desk.archive) && Genuine(w, j.observer.given, FilesOf(j))
    ensures Proceeds(w, j, Step(w, j, e))
  {
    hide Capture.Inv, Sound, Genuine, Proceeds, Step;
    match e {
      case Pushed => PushProceeds(w, j);
      case Cycle(_, _, _, _) => CycleProceeds(w, j, e);
      case Served(op) => ServingProceeds(w, j, op);
    }
  }

  lemma {:induction false} RunIsHonest(w: World, events: seq<Event>)
    requires Fresh(w)
    ensures Honest(w, events)
  {
    hide Fresh, Capture.Inv, Sound, Genuine, Confirms, Step, AllSeen, ToldSeen, SameNumbers;
    if events == [] {
      BootIsHonest(w);
    } else {
      RunIsHonest(w, events[..|events| - 1]);
      StepProceeds(w, After(w, events[..|events| - 1]), events[|events| - 1]);
      ConfirmedIsSeen(w, events);
      ToldIsSeen(w, events);
    }
  }

  // ---------------------------------------------------------------- from an identity on disk to the row itself

  lemma {:induction false} GivenIsKept(w: World, events: seq<Event>, k: nat)
    requires Fresh(w) && k <= |events|
    ensures SameNumbers(After(w, events[..k]).observer.given, After(w, events).observer.given)
  {
    hide Fresh, Capture.Inv, Sound, Genuine, Confirms, Step, AllSeen, ToldSeen;
    if k == |events| {
      assert events[..k] == events;
    } else {
      var less := events[..|events| - 1];
      GivenIsKept(w, less, k);
      assert less[..k] == events[..k];
      RunIsHonest(w, less);
      StepProceeds(w, After(w, less), events[|events| - 1]);
    }
  }

  /** A numbered row was on disk, as itself and in its own hour, after one of the steps so far. */
  ghost predicate Archived(w: World, events: seq<Event>, given: map<Capture.RowRef, nat>, row: Capture.RowRef) {
    exists k: nat, r: Row ::
      k <= |events| && Holds(FilesOf(After(w, events[..k])), HourOf(w.time(row)), r) && IsRecordOf(w, given, row, r)
  }

  lemma NumbersAreUnique(o: Capture.Observer, row: Capture.RowRef, other: Capture.RowRef)
    requires Capture.Inv(o) && row in o.given && other in o.given && o.given[row] == o.given[other]
    ensures row == other
  {
    hide Capture.AllAccountedFor, Capture.Observes, Capture.DequeIsRecent;
    assert row.at == other.at;
  }

  lemma SeenIsArchived(w: World, events: seq<Event>, row: Capture.RowRef)
    requires Fresh(w) && row in After(w, events).observer.given
    requires Seen(w, events, Identity(w.session, After(w, events).observer.given[row]))
    ensures Archived(w, events, After(w, events).observer.given, row)
  {
    hide After, Fresh, Capture.Inv, Sound, AllSeen, ToldSeen;
    var given := After(w, events).observer.given;
    var id := Identity(w.session, given[row]);
    var k: nat :| k <= |events| && OnDisk(FilesOf(After(w, events[..k])), id);
    var files := FilesOf(After(w, events[..k]));
    var h :| h in files && id in Ids(files[h].lines, h, None);
    var l :| l in files[h].lines && Eligible(l, h, None) && l.row.id == id;
    assert Holds(files, h, l.row);
    RunIsHonest(w, events[..k]);
    GivenIsKept(w, events, k);
    var other :| IsRecordOf(w, After(w, events[..k]).observer.given, other, l.row);
    RunIsHonest(w, events);
    NumbersAreUnique(After(w, events).observer, row, other);
    assert IsRecordOf(w, given, row, l.row);
  }

  lemma DequeIsWhole(o: Capture.Observer, row: Capture.RowRef)
    requires Capture.Inv(o)
    ensures row in o.deque <==> Capture.Recent(row, o.pushed)
  {
    Capture.DequeHolds(o, row);
  }

  /**
   * From any disk and clock, over any run of pushes, passes, downloads and failures: at every pass under a trusted
   * clock each row ever pushed is still in the live deque, or has been stored, under its own number and in its own
   * hour, or the sticky overflow gap is set.
   */
  lemma NoRowIsLostSilently(w: World, events: seq<Event>, e: Event, row: Capture.RowRef)
    requires Fresh(w) && e.Cycle? && row.at < After(w, events).observer.pushed
    requires !After(w, events).system.desk.archive.clock.uncertain
    ensures
      var o := After(w, events + [e]).observer;
      && (row in o.deque || o.overflow || Archived(w, events + [e], o.given, row))
      && (After(w, events).observer.overflow ==> o.overflow)
  {
    hide Fresh, Capture.Inv, Sound, Genuine, AllSeen, Archived, Seen, Capture.NumberTo, Capture.Overflows;
    var all := events + [e];
    assert all[..|all| - 1] == events;
    RunIsHonest(w, events);
    RunIsHonest(w, all);
    var j := After(w, events);
    var told := SequencesOf(j.system.desk.archive.confirmed, w.session);
    var o := After(w, all).observer;
    assert o == Capture.Capture(j.observer, false, told).0;
    Capture.CaptureAccounts(j.observer, told, row);
    DequeIsWhole(o, row);
    if row !in o.deque && !o.overflow {
      SeenIsArchived(w, all, row);
    }
  }
}
