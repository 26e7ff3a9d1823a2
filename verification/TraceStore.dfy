/** The archive's writer, updated in place. */
module TraceStoreObject {
  import opened Options
  import opened TraceClock
  import opened TraceArchiveSpec
  import opened TraceDownloadSpec

  // ---------------------------------------------------------------- passes that end early

  lemma {:induction false} FailedScanStays(a: Archive, k: nat, n: nat, ios: seq<Io>)
    requires k <= n <= |a.disk.dir| && ScanTo(a, k, ios).failed
    ensures ScanTo(a, n, ios) == ScanTo(a, k, ios)
  {
    hide ScanSegment;
    if k < n {
      FailedScanStays(a, k, n - 1, ios);
    }
  }

  lemma {:induction false} EndedAppendStays(a: Archive, batches: seq<Batch>, k: nat, n: nat, puts: seq<Put>)
    requires k <= n <= |batches| && AppendTo(a, batches, k, puts).1 != Goes
    ensures AppendTo(a, batches, n, puts) == AppendTo(a, batches, k, puts)
  {
    hide AppendBatch;
    if k < n {
      EndedAppendStays(a, batches, k, n - 1, puts);
    }
  }

  lemma {:induction false} StoppedPassStays(a: Archive, listed: seq<Hour>, k: nat, n: nat, cutoff: int,
                                            sweeps: seq<Sweep>)
    requires k <= n <= |listed| && PruneTo(a, listed, k, cutoff, sweeps).stopping
    ensures PruneTo(a, listed, n, cutoff, sweeps) == PruneTo(a, listed, k, cutoff, sweeps)
  {
    hide PruneHour;
    if k < n {
      StoppedPassStays(a, listed, k, n - 1, cutoff, sweeps);
    }
  }

  lemma ScanSteps(a: Archive, k: nat, ios: seq<Io>)
    requires k < |a.disk.dir|
    ensures
      var s, hour := ScanTo(a, k, ios), a.disk.dir[k];
      ScanTo(a, k + 1, ios) ==
      if s.failed then s else ScanSegment(s, hour, a.clock.uncertain, Pinned(a, hour), At(ios, k, Fine))
  {
  }

  lemma NothingScanned(a: Archive, ios: seq<Io>)
    ensures ScanTo(a, 0, ios) == Scan(a.disk.files, NOTHING, false, a.gaps, false)
  {
  }

  lemma AppendSteps(a: Archive, batches: seq<Batch>, k: nat, puts: seq<Put>)
    requires k < |batches|
    ensures
      var (before, fate) := AppendTo(a, batches, k, puts);
      AppendTo(a, batches, k + 1, puts) ==
      if fate != Goes then (before, fate)
      else if before.stopping then (before, Halts)
      else AppendBatch(before, batches[k], At(puts, k, Wrote))
  {
  }

  lemma PassSteps(a: Archive, listed: seq<Hour>, k: nat, cutoff: int, sweeps: seq<Sweep>)
    requires k < |listed|
    ensures
      PruneTo(a, listed, k + 1, cutoff, sweeps) ==
      SweepHour(PruneTo(a, listed, k, cutoff, sweeps), listed[k], cutoff, At(sweeps, k, Does(Fine)))
  {
  }

  class DecisionTraceStore {
    var files: map<Hour, File>
    var dir: seq<Hour>
    var lengths: map<Hour, nat>
    var ids: map<Hour, set<Identity>>
    var order: seq<Hour>
    var committed: set<Identity>
    var recoveryNeeded: bool
    var deferred: bool
    var ready: bool
    var stopping: bool
    var pins: map<Hour, nat>
    var gaps: set<Gap>
    var clock: Clock
    var history: seq<Epoch>
    var confirmed: set<Identity>
    var active: int

    function View(): Archive
      reads this
    {
      Archive(Disk(files, dir), Index(lengths, ids, order, committed), recoveryNeeded, deferred, ready, stopping,
              pins, gaps, clock, history, confirmed)
    }

    /** A store over what is on disk; nothing is trusted until a recovery has read it. */
    constructor (files: map<Hour, File>, dir: seq<Hour>, clock: Clock, history: seq<Epoch>)
      ensures View() == Archive(Disk(files, dir), NOTHING, true, false, false, false, map[], {}, clock, history, {})
      ensures active == 0
    {
      this.files, this.dir, this.clock, this.history := files, dir, clock, history;
      lengths, ids, order, committed, confirmed := map[], map[], [], {}, {};
      recoveryNeeded, deferred, ready, stopping, pins, gaps, active := true, false, false, false, map[], {}, 0;
    }

    method NoteGap(seen: bool, gap: Gap)
      modifies this`gaps
      ensures gaps == NoteIf(old(gaps), seen, gap)
    {
      if seen {
        gaps := gaps + {gap};
      }
    }

    // -------------------------------------------------------------- segments

    /** One pass over a segment's lines. */
    static method KeepRows(lines: seq<Line>, hour: Hour, cutoff: Option<int>, excluded: set<Identity>)
      returns (rows: seq<Row>, kept: set<Identity>)
      ensures rows == Keep(lines, hour, cutoff, excluded) && kept == IdsOf(rows)
    {
      rows, kept := [], {};
      for i := 0 to |lines|
        invariant rows == Keep(lines[..i], hour, cutoff, excluded) && kept == IdsOf(rows)
      {
        var line := lines[i];
        assert lines[..i + 1][..i] == lines[..i];
        if line.Whole? && line.row.id !in excluded && line.row.id !in kept && Eligible(line, hour, cutoff) {
          assert forall r :: r in rows + [line.row] <==> r in rows || r == line.row;
          rows, kept := rows + [line.row], kept + {line.row.id};
        }
      }
      assert lines[..|lines|] == lines;
    }

    method ReplaceSegment(hour: Hour, cutoff: Option<int>, excluded: set<Identity>, io: Io)
      returns (done: bool, kept: set<Identity>)
      requires hour in files
      modifies this`files, this`gaps
      ensures
        var r := Replace(old(files[hour]), old(gaps), hour, cutoff, excluded, Pinned(old(View()), hour), io);
        files == old(files)[hour := r.file] && gaps == r.gaps && done == r.done
      ensures kept == IdsOf(Keep(old(files[hour]).lines, hour, cutoff, excluded))
    {
      var rows;
      rows, kept := KeepRows(files[hour].lines, hour, cutoff, excluded);
      assert files[hour := files[hour]] == files;
      if hour in pins && pins[hour] > 0 {
        return false, kept;
      }
      NoteGap(HasDiscards(files[hour]), DiscardedRecord);
      if io == FailsBefore {
        return false, kept;
      }
      files := files[hour := File(LinesOf(rows), false)];
      done := io == Fine;
    }

    function Scanning(found: Index, failed: bool): Scan
      reads this
    {
      Scan(files, found, deferred, gaps, failed)
    }

    /** One segment of a scan: checked, repaired if the clock allows it, and entered. */
    method ScanOne(found: Index, hour: Hour, io: Io) returns (ok: bool, next: Index)
      requires hour in files
      modifies this`files, this`deferred, this`gaps
      ensures
        Scanning(next, !ok) ==
        ScanSegment(old(Scanning(found, false)), hour, clock.uncertain, Pinned(old(View()), hour), io)
      ensures files.Keys == old(files.Keys)
    {
      next, ok := found, io == Fine;
      var rows, kept := KeepRows(files[hour].lines, hour, None, found.committed);
      if files[hour].torn || |rows| != |files[hour].lines| {
        NoteGap(true, DiscardedRecord);
        if clock.uncertain {
          deferred := true;
        } else {
          ok, kept := ReplaceSegment(hour, None, found.committed, io);
        }
      }
      if ok {
        next := Entered(found, hour, Size(files[hour]), kept);
      }
    }

    /** The scan, segment by segment in the order of the listing; it ends with the first failure. */
    method ScanArchive(ios: seq<Io>) returns (ok: bool, found: Index)
      requires forall h :: h in dir ==> h in files
      modifies this`files, this`deferred, this`gaps
      ensures Scanning(found, !ok) == ScanTo(old(View()), |dir|, ios)
      ensures files.Keys == old(files.Keys)
    {
      hide ScanSegment, ScanTo;
      ghost var a := View();
      found, deferred := NOTHING, false;
      NothingScanned(a, ios);
      for k := 0 to |dir|
        invariant files.Keys == a.disk.files.Keys
        invariant Scanning(found, false) == ScanTo(a, k, ios)
      {
        ok, found := ScanOne(found, dir[k], At(ios, k, Fine));
        ScanSteps(a, k, ios);
        if !ok {
          FailedScanStays(a, k + 1, |dir|, ios);
          return;
        }
      }
      ok := true;
    }

    method AdoptIndex(found: Index)
      modifies this`lengths, this`ids, this`order, this`committed, this`confirmed
      ensures Entries() == found && confirmed == found.committed
    {
      lengths, ids, order, committed := found.lengths, found.ids, found.order, found.committed;
      confirmed := committed;
    }

    /** The index is adopted, and its identities published, only at the end of a scan. */
    method RecoverArchive(pass: Pass) returns (ok: bool)
      requires forall h :: h in dir ==> h in files
      modifies this`files, this`lengths, this`ids, this`order, this`committed, this`deferred, this`gaps,
               this`recoveryNeeded, this`ready, this`confirmed
      ensures (View(), ok) == Recover(old(View()), pass)
      ensures files.Keys == old(files.Keys)
    {
      hide ScanTo;
      ghost var a := View();
      var found;
      ok, found := ScanArchive(pass.ios);
      ghost var s := ScanTo(a, |a.disk.dir|, pass.ios);
      assert View() == Scanned(a, s);
      if !ok || pass.ending == BeforeIndexing {
        return false;
      }
      AdoptIndex(found);
      if pass.ending == AfterIndexing {
        return false;
      }
      recoveryNeeded, ready := false, true;
    }

    function Entries(): Index
      reads this
    {
      Index(lengths, ids, order, committed)
    }

    method EnterSegment(hour: Hour, length: nat, known: set<Identity>)
      modifies this`lengths, this`ids, this`order, this`committed
      ensures Entries() == Entered(old(Entries()), hour, length, known)
    {
      if hour !in lengths {
        order := order + [hour];
      }
      lengths, ids, committed := lengths[hour := length], ids[hour := known], committed + known;
    }

    method ForgetSegment(hour: Hour)
      modifies this`lengths, this`ids, this`order, this`committed
      ensures Entries() == Forgotten(old(Entries()), hour)
    {
      committed := committed - if hour in ids then ids[hour] else {};
      lengths, ids, order := lengths - {hour}, ids - {hour}, Without(order, hour);
    }

    method TrimEntry(hour: Hour, f: File, kept: set<Identity>)
      modifies this`lengths, this`ids, this`committed
      ensures Entries() == Trimmed(old(Entries()), hour, f, kept)
    {
      committed := committed - ((if hour in ids then ids[hour] else {}) - kept);
      lengths, ids := lengths[hour := Size(f)], ids[hour := kept];
    }

    // -------------------------------------------------------------- appending

    /** Groups the rows to write by segment, in order of first appearance. */
    method GatherRows(rows: seq<Candidate>, now: int) returns (batches: seq<Batch>)
      modifies this`gaps
      ensures batches == Gather(rows, committed, now).batches
      ensures gaps == NoteIf(old(gaps), Gather(rows, committed, now).future, DiscardedRecord)
    {
      var pending: set<Identity> := {};
      ghost var future := false;
      batches := [];
      for i := 0 to |rows|
        invariant Gathered(batches, pending, future) == Gather(rows[..i], committed, now)
        invariant gaps == NoteIf(old(gaps), future, DiscardedRecord)
      {
        var c := rows[i];
        assert rows[..i + 1][..i] == rows[..i];
        if c.row.ts > now + CLOCK_JUMP {
          NoteGap(true, DiscardedRecord);
          future := true;
        } else if c.row.id !in committed && c.row.id !in pending && c.row.ts >= now - RETENTION && c.fits {
          batches, pending := AddTo(batches, c.row), pending + {c.row.id};
        }
      }
      assert rows[..|rows|] == rows;
    }

    method AppendToSegment(b: Batch, put: Put) returns (fate: Fate)
      modifies this`files, this`dir, this`lengths, this`ids, this`order, this`committed, this`confirmed, this`stopping
      ensures (View(), fate) == AppendBatch(old(View()), b, put)
    {
      hide Extended, Torn, Insert, Entered;
      var f := FileAt(files, b.hour);
      match put
      case PutStop =>
        stopping := true;
        fate := Halts;
      case Refused =>
        fate := Breaks;
      case Tore(lines, fragment) =>
        files, dir := files[b.hour := Torn(f, b.rows, lines, fragment)], Insert(dir, b.hour);
        fate := Breaks;
      case Wrote =>
        StoreBatch(b, f);
        fate := Goes;
    }

    method StoreBatch(b: Batch, f: File)
      requires f == FileAt(files, b.hour)
      modifies this`files, this`dir, this`lengths, this`ids, this`order, this`committed, this`confirmed
      ensures Disk(files, dir) == Stored(old(Disk(files, dir)), b.hour, Extended(f, b.rows))
      ensures
        var known := if b.hour in old(ids) then old(ids[b.hour]) else {};
        Entries() == Entered(old(Entries()), b.hour, Size(Extended(f, b.rows)), known + IdsOf(b.rows))
      ensures confirmed == committed
    {
      hide Extended, Insert, Entered;
      var g, known := Extended(f, b.rows), if b.hour in ids then ids[b.hour] else {};
      files, dir := files[b.hour := g], Insert(dir, b.hour);
      EnterSegment(b.hour, Size(g), known + IdsOf(b.rows));
      confirmed := committed;
    }

    method AppendRows(rows: seq<Candidate>, now: int, puts: seq<Put>) returns (fate: Fate)
      modifies this`files, this`dir, this`lengths, this`ids, this`order, this`committed, this`confirmed, this`stopping,
               this`gaps
      ensures (View(), fate) == Append(old(View()), rows, now, puts)
    {
      var batches := GatherRows(rows, now);
      ghost var a := View();
      assert Append(old(View()), rows, now, puts) == AppendTo(a, batches, |batches|, puts);
      fate := Goes;
      for k := 0 to |batches|
        invariant (View(), Goes) == AppendTo(a, batches, k, puts)
      {
        AppendSteps(a, batches, k, puts);
        if stopping {
          EndedAppendStays(a, batches, k + 1, |batches|, puts);
          return Halts;
        }
        fate := AppendToSegment(batches[k], At(puts, k, Wrote));
        if fate != Goes {
          EndedAppendStays(a, batches, k + 1, |batches|, puts);
          return;
        }
      }
      fate := Goes;
    }

    // -------------------------------------------------------------- pruning

    method PruneSegment(hour: Hour, cutoff: int, io: Io)
      modifies this`files, this`dir, this`lengths, this`ids, this`order, this`committed, this`gaps,
               this`recoveryNeeded
      ensures View() == PruneHour(old(View()), hour, cutoff, io)
    {
      if (hour in pins && pins[hour] > 0) || StartOf(hour) >= cutoff {
        return;
      }
      if hour !in files {
        recoveryNeeded := true;
      } else if EndOf(hour) <= cutoff {
        UnlinkSegment(hour, io);
      } else {
        TrimSegment(hour, cutoff, io);
      }
    }

    method UnlinkSegment(hour: Hour, io: Io)
      modifies this`files, this`dir, this`lengths, this`ids, this`order, this`committed, this`recoveryNeeded
      ensures View() == Unlink(old(View()), hour, io)
    {
      hide Forgotten, Without;
      if io == FailsBefore {
        recoveryNeeded := true;
        return;
      }
      files, dir := files - {hour}, Without(dir, hour);
      if io == FailsAfter {
        recoveryNeeded := true;
        return;
      }
      ForgetSegment(hour);
    }

    method TrimSegment(hour: Hour, cutoff: int, io: Io)
      requires hour in files && !Pinned(View(), hour)
      modifies this`files, this`lengths, this`ids, this`committed, this`gaps, this`recoveryNeeded
      ensures View() == Trim(old(View()), hour, cutoff, io)
    {
      hide Trimmed, Keep, Kept;
      var done, kept := ReplaceSegment(hour, Some(cutoff), {}, io);
      if done {
        TrimEntry(hour, files[hour], kept);
      } else {
        recoveryNeeded := true;
      }
    }

    method PruneSegments(cutoff: int, sweeps: seq<Sweep>)
      modifies this`files, this`dir, this`lengths, this`ids, this`order, this`committed, this`gaps,
               this`recoveryNeeded, this`stopping
      ensures View() == Prune(old(View()), cutoff, sweeps)
    {
      ghost var a := View();
      var listed := order;
      for k := 0 to |listed|
        invariant View() == PruneTo(a, listed, k, cutoff, sweeps)
      {
        PassSteps(a, listed, k, cutoff, sweeps);
        var sweep := At(sweeps, k, Does(Fine));
        if !stopping && sweep.SweepStop? {
          stopping := true;
        }
        if stopping {
          StoppedPassStays(a, listed, k + 1, |listed|, cutoff, sweeps);
          return;
        }
        PruneSegment(listed[k], cutoff, sweep.io);
      }
    }

    // -------------------------------------------------------------- the clock

    method CheckedTime(now: int, mono: int) returns (time: int, sane: bool)
      modifies this`clock, this`gaps
      ensures View() == Checked(old(View()), now, mono)
      ensures time == CheckTime(old(clock), now, mono).now && sane == CheckTime(old(clock), now, mono).sane
    {
      if clock.wall.None? && clock.uncertain {
        return now, false;
      }
      var expected := if clock.wall.None? then now else clock.wall.value + (mono - clock.mono);
      sane := !clock.attest && mono >= clock.mono && Abs(now - expected) <= CLOCK_JUMP;
      if sane {
        clock := clock.(wall := Some(now), mono := mono, uncertain := false);
        return now, true;
      }
      clock := clock.(uncertain := true);
      NoteGap(true, ClockDiscontinuity);
      time := expected;
    }

    method TryClockRecovery(now: int, p: Probed) returns (verdict: Verdict)
      requires forall h :: h in dir ==> h in files
      modifies this`files, this`lengths, this`ids, this`order, this`committed, this`deferred, this`gaps,
               this`recoveryNeeded, this`ready, this`clock, this`history, this`confirmed
      ensures (View(), verdict) == RecoverClock(old(View()), now, p)
      ensures files.Keys == old(files.Keys)
    {
      hide Reanchor;
      if p.mono < clock.nextProbe {
        return Unresolved;
      }
      clock := clock.(nextProbe := p.mono + FLUSH_INTERVAL);
      if !p.proof || p.elapsed < 0 || p.elapsed > PROBE_LIMIT {
        return Unresolved;
      }
      if |lengths| > MAX_HISTORY_SEGMENTS || !(lengths.Keys <= files.Keys) || p.publication == FailsBefore {
        return Broke;
      }
      verdict := ReanchorClock(now, p);
    }

    /** Publishes every indexed segment, then adopts the corroborated time and repairs under it. */
    method ReanchorClock(now: int, p: Probed) returns (verdict: Verdict)
      requires forall h :: h in dir ==> h in files
      modifies this`files, this`lengths, this`ids, this`order, this`committed, this`deferred, this`gaps,
               this`recoveryNeeded, this`ready, this`clock, this`history, this`confirmed
      ensures (View(), verdict) == Reanchor(old(View()), now, p)
      ensures files.Keys == old(files.Keys)
    {
      hide Recover;
      var epoch := Epoch(clock.wall, map h | h in lengths :: FileAt(files, h));
      if epoch !in history {
        history := history + [epoch];
      }
      if p.publication == FailsAfter {
        return Broke;
      }
      if !p.saved {
        clock := clock.(uncertain := true, attest := true);
        return Broke;
      }
      clock := Reanchored(clock, now, p.mono, p.elapsed);
      var ok := RecoverArchive(p.recovery);
      verdict := if ok then Acts(now + p.elapsed) else Broke;
    }

    // -------------------------------------------------------------- flushing

    method WriteRows(rows: seq<Candidate>, now: int, w: Weather) returns (ok: bool)
      modifies this
      ensures (View(), ok) == Write(old(View()), rows, now, w)
      ensures active == old(active)
    {
      var fate := AppendRows(rows, now, w.puts);
      if fate == Breaks {
        recoveryNeeded := true;
        return false;
      }
      if fate == Halts {
        return false;
      }
      PruneSegments(now - RETENTION, w.sweeps);
      if !w.saved {
        recoveryNeeded := true;
        return false;
      }
      confirmed := committed;
      ok := true;
    }

    method JudgeTime(now: int, w: Weather) returns (verdict: Verdict)
      requires forall h :: h in dir ==> h in files
      modifies this
      ensures (View(), verdict) == Judge(old(View()), now, w)
      ensures active == old(active)
      ensures forall h :: h in dir ==> h in files
    {
      if recoveryNeeded {
        var ok := RecoverArchive(w.opening);
        if !ok {
          return Broke;
        }
      }
      var time, sane := CheckedTime(now, w.mono);
      if !w.checkSaved {
        return Broke;
      }
      if sane {
        return Acts(time);
      }
      verdict := TryClockRecovery(now, w.probe);
    }

    /** The periodic pass: recover, judge the clock, append what is due, prune. */
    method FlushRows(rows: seq<Candidate>, now: int, w: Weather) returns (ok: bool)
      requires forall h :: h in dir ==> h in files
      modifies this
      ensures (View(), ok) == Flush(old(View()), rows, now, w)
      ensures active == old(active)
    {
      hide Judge, Write, Recover;
      if stopping {
        return false;
      }
      var verdict := JudgeTime(now, w);
      match verdict
      case Broke =>
        recoveryNeeded := true;
        ok := false;
      case Unresolved =>
        ok := true;
      case Acts(t) =>
        var repaired := true;
        if deferred {
          repaired := RecoverArchive(w.repair);
        }
        if repaired {
          ok := WriteRows(rows, t, w);
        } else {
          recoveryNeeded := true;
          ok := false;
        }
    }

    // -------------------------------------------------------------- downloads

    function Desk(): Desk
      reads this
    {
      TraceDownloadSpec.Desk(View(), active)
    }

    method ReserveDownload() returns (ok: bool)
      modifies this`active
      ensures (Desk(), ok) == Reserve(old(Desk()))
    {
      if stopping || active >= MAX_DOWNLOADS {
        return false;
      }
      active := active + 1;
      ok := true;
    }

    method ReleaseDownload()
      modifies this`active
      ensures Desk() == Release(old(Desk()))
    {
      active := active - 1;
    }

    /** The segments that overlap the retention window, in order, with the lengths now indexed for them. */
    method FindPieces(cutoff: int, now: int) returns (pieces: seq<Piece>)
      ensures pieces == PiecesOf(View(), SortHours(order), cutoff, now)
    {
      var hours := SortHours(order);
      pieces := [];
      var i := |hours|;
      while i > 0
        invariant 0 <= i <= |hours| && pieces == PiecesOf(View(), hours[i..], cutoff, now)
      {
        i := i - 1;
        assert hours[i..][0] == hours[i] && hours[i..][1..] == hours[i + 1..];
        if Overlaps(hours[i], cutoff, now) && hours[i] in lengths {
          pieces := [Piece(hours[i], lengths[hours[i]], FileAt(files, hours[i]))] + pieces;
        }
      }
      assert hours[0..] == hours;
    }

    /** Adds one pin per piece. */
    method PinPieces(pieces: seq<Piece>)
      modifies this`pins
      ensures pins == PinAll(old(pins), pieces)
    {
      for i := 0 to |pieces|
        invariant PinAll(pins, pieces[i..]) == PinAll(old(pins), pieces)
      {
        assert pieces[i..][0] == pieces[i] && pieces[i..][1..] == pieces[i + 1..];
        pins := pins[pieces[i].hour := PinsOf(pins, pieces[i].hour) + 1];
      }
    }

    /** Takes one pin per piece away, and forgets a segment with none left. */
    method UnpinPieces(pieces: seq<Piece>)
      modifies this`pins
      ensures pins == UnpinAll(old(pins), pieces)
    {
      for i := 0 to |pieces|
        invariant UnpinAll(pins, pieces[i..]) == UnpinAll(old(pins), pieces)
      {
        assert pieces[i..][0] == pieces[i] && pieces[i..][1..] == pieces[i + 1..];
        pins := Unpin(pins, pieces[i].hour);
      }
    }

    method OpenDownload(o: Opening) returns (view: TraceDownload?)
      modifies this`clock, this`gaps, this`pins, this`active
      ensures Desk() == Open(old(Desk()), o).0
      ensures view == null <==> Open(old(Desk()), o).1.None?
      ensures view != null ==>
                fresh(view) && view.store == this && Some(view.View()) == Open(old(Desk()), o).1
    {
      hide SortHours, PiecesOf;
      view := null;
      if !ready || stopping || o.late {
        ReleaseDownload();
        return;
      }
      ghost var a := View();
      var now, _ := CheckedTime(o.now, o.mono);
      var pieces := FindPieces(now - RETENTION, now);
      FindingIgnoresTheClock(a, View(), SortHours(order), now - RETENTION, now);
      assert pieces == Found(a, o);
      if !o.saved || (clock.uncertain && clock.wall.None?) || |pieces| > MAX_DOWNLOAD_SEGMENTS || !o.opens
         || !AllThere(View(), pieces) {
        ReleaseDownload();
        return;
      }
      PinPieces(pieces);
      view := new TraceDownload(this, pieces, now - RETENTION);
    }
  }

  lemma {:induction false} FindingIgnoresTheClock(a: Archive, b: Archive, hours: seq<Hour>, cutoff: int, now: int)
    requires b.index == a.index && b.disk == a.disk
    ensures PiecesOf(b, hours, cutoff, now) == PiecesOf(a, hours, cutoff, now)
  {
    if hours != [] {
      FindingIgnoresTheClock(a, b, hours[1..], cutoff, now);
    }
  }

  /** A pinned view of the store's segments, read one line at a time and released once. */
  class TraceDownload {
    const store: DecisionTraceStore
    const pieces: seq<Piece>
    const cutoff: int
    var at: nat
    var pos: nat
    var sent: seq<Row>
    var closed: bool

    function View(): Download
      reads this
    {
      Download(pieces, cutoff, at, pos, sent, closed)
    }

    constructor (store: DecisionTraceStore, pieces: seq<Piece>, cutoff: int)
      ensures this.store == store && View() == Download(pieces, cutoff, 0, 0, [], false)
    {
      this.store, this.pieces, this.cutoff := store, pieces, cutoff;
      at, pos, sent, closed := 0, 0, [], false;
    }

    method CloseView()
      modifies this`closed, store`pins, store`active
      ensures (store.Desk(), View()) == Close(old(store.Desk()), old(View()))
    {
      if closed {
        return;
      }
      closed := true;
      store.UnpinPieces(pieces);
      store.ReleaseDownload();
    }

    method ReadLine()
      modifies this`at, this`pos, this`sent, this`closed, store`pins, store`active, store`gaps
      ensures (store.Desk(), View()) == Read(old(store.Desk()), old(View()))
    {
      if closed || at >= |pieces| {
        CloseView();
        return;
      }
      var p := pieces[at];
      var f := FileAt(store.files, p.hour);
      if pos >= p.range || pos >= |f.lines| {
        store.NoteGap(f.torn && p.range > |f.lines|, DiscardedRecord);
        at, pos := at + 1, 0;
      } else {
        var line := f.lines[pos];
        store.NoteGap(line.Garbage?, DiscardedRecord);
        if line.Whole? && line.row.ts >= cutoff {
          sent := sent + [line.row];
        }
        pos := pos + 1;
      }
    }
  }
}
