/** Hourly segments of decision rows on a disk that may fail between, or part way through, its steps. */
module TraceArchiveSpec {
  import opened Options
  import opened TraceClock

  const HOUR: int := 3600 * SECOND
  const RETENTION: int := 24 * HOUR
  const MAX_HISTORY_SEGMENTS: nat := 25

  datatype Hour = Hour(number: int)
  datatype Identity = Identity(session: nat, sequence: nat)
  datatype Row = Row(id: Identity, ts: int, body: nat)
  datatype Line = Whole(row: Row) | Garbage
  /** Complete lines, and whether an unfinished one trails them. */
  datatype File = File(lines: seq<Line>, torn: bool)
  datatype Disk = Disk(files: map<Hour, File>, dir: seq<Hour>)
  datatype Index = Index(lengths: map<Hour, nat>, ids: map<Hour, set<Identity>>, order: seq<Hour>,
                         committed: set<Identity>)
  datatype Gap = DiscardedRecord | ClockDiscontinuity
  /** A published copy of every indexed segment, under the anchor that was given up. */
  datatype Epoch = Epoch(anchor: Option<int>, files: map<Hour, File>)
  /** confirmed is the set of committed identities as last published to the event loop. */
  datatype Archive = Archive(disk: Disk, index: Index, recoveryNeeded: bool, deferred: bool, ready: bool,
                             stopping: bool, pins: map<Hour, nat>, gaps: set<Gap>, clock: Clock,
                             history: seq<Epoch>, confirmed: set<Identity>)

  /** What the disk does to one replacement, removal or publication. */
  datatype Io = Fine | FailsBefore | FailsAfter
  /** What it does to one append: Tore leaves some complete lines and perhaps a fragment behind. */
  datatype Put = Wrote | Refused | Tore(lines: nat, fragment: bool) | PutStop
  datatype Sweep = Does(io: Io) | SweepStop
  datatype Ending = Finished | BeforeIndexing | AfterIndexing
  datatype Pass = Pass(ios: seq<Io>, ending: Ending)
  datatype Probed = Probed(mono: int, proof: bool, elapsed: int, publication: Io, saved: bool, recovery: Pass)
  datatype Weather = Weather(opening: Pass, mono: int, checkSaved: bool, probe: Probed, repair: Pass,
                             puts: seq<Put>, sweeps: seq<Sweep>, saved: bool)

  function At<T>(s: seq<T>, i: nat, otherwise: T): T {
    if i < |s| then s[i] else otherwise
  }

  function HourOf(ts: int): Hour {
    Hour(ts / HOUR)
  }

  function StartOf(hour: Hour): int {
    hour.number * HOUR
  }

  function EndOf(hour: Hour): int {
    StartOf(hour) + HOUR
  }

  function Size(f: File): nat {
    |f.lines| + if f.torn then 1 else 0
  }

  function FileAt(files: map<Hour, File>, hour: Hour): File {
    if hour in files then files[hour] else File([], false)
  }

  predicate Pinned(a: Archive, hour: Hour) {
    hour in a.pins && a.pins[hour] > 0
  }

  // ---------------------------------------------------------------- rewriting a segment

  function IdsOf(rows: seq<Row>): set<Identity> {
    set r | r in rows :: r.id
  }

  function LinesOf(rows: seq<Row>): seq<Line> {
    seq(|rows|, i requires 0 <= i < |rows| => Whole(rows[i]))
  }

  /** A complete row in its own hour, at or after the cutoff if there is one. */
  predicate Eligible(line: Line, hour: Hour, cutoff: Option<int>) {
    line.Whole? && HourOf(line.row.ts) == hour && (cutoff.None? || line.row.ts >= cutoff.value)
  }

  /** The rows that a pass over a segment keeps: eligible, not excluded and not already kept. */
  function Keep(lines: seq<Line>, hour: Hour, cutoff: Option<int>, excluded: set<Identity>): seq<Row> {
    if lines == [] then []
    else
      var seen, line := Keep(lines[..|lines| - 1], hour, cutoff, excluded), lines[|lines| - 1];
      if Eligible(line, hour, cutoff) && line.row.id !in excluded && line.row.id !in IdsOf(seen)
      then seen + [line.row]
      else seen
  }

  function Kept(f: File, hour: Hour, cutoff: Option<int>, excluded: set<Identity>): File {
    File(LinesOf(Keep(f.lines, hour, cutoff, excluded)), false)
  }

  predicate HasDiscards(f: File) {
    f.torn || Garbage in f.lines
  }

  function NoteIf(gaps: set<Gap>, seen: bool, gap: Gap): set<Gap> {
    if seen then gaps + {gap} else gaps
  }

  datatype Rewrite = Rewrite(file: File, gaps: set<Gap>, done: bool)

  /** done means that the caller learns of the new contents; the contents may be new without it. */
  function Replace(f: File, gaps: set<Gap>, hour: Hour, cutoff: Option<int>, excluded: set<Identity>, pinned: bool,
                   io: Io): Rewrite
  {
    if pinned then Rewrite(f, gaps, false)
    else
      var noted := NoteIf(gaps, HasDiscards(f), DiscardedRecord);
      Rewrite(if io == FailsBefore then f else Kept(f, hour, cutoff, excluded), noted, io == Fine)
  }

  // ---------------------------------------------------------------- recovery

  const NOTHING: Index := Index(map[], map[], [], {})

  datatype Scan = Scan(files: map<Hour, File>, index: Index, deferred: bool, gaps: set<Gap>, failed: bool)

  /** An index entry for a segment, at the end of the dictionary order if the segment is new to it. */
  function Entered(x: Index, hour: Hour, length: nat, ids: set<Identity>): Index {
    Index(x.lengths[hour := length], x.ids[hour := ids], if hour in x.lengths then x.order else x.order + [hour],
          x.committed + ids)
  }

  function Indexed(s: Scan, hour: Hour, ids: set<Identity>): Scan {
    s.(index := Entered(s.index, hour, Size(FileAt(s.files, hour)), ids))
  }

  predicate Intact(f: File, kept: seq<Row>) {
    !f.torn && |kept| == |f.lines|
  }

  function ScanSegment(s: Scan, hour: Hour, uncertain: bool, pinned: bool, io: Io): Scan {
    var f := FileAt(s.files, hour);
    var kept := Keep(f.lines, hour, None, s.index.committed);
    if Intact(f, kept) then
      if io == Fine then Indexed(s, hour, IdsOf(kept)) else s.(failed := true)
    else
      var noted := s.(gaps := s.gaps + {DiscardedRecord});
      if uncertain then
        if io == Fine then Indexed(noted.(deferred := true), hour, IdsOf(kept))
        else noted.(deferred := true, failed := true)
      else
        var rewrite := Replace(f, noted.gaps, hour, None, s.index.committed, pinned, io);
        var written := noted.(files := s.files[hour := rewrite.file]);
        if rewrite.done then Indexed(written, hour, IdsOf(kept)) else written.(failed := true)
  }

  function ScanTo(a: Archive, k: nat, ios: seq<Io>): Scan
    requires k <= |a.disk.dir|
  {
    if k == 0 then Scan(a.disk.files, NOTHING, false, a.gaps, false)
    else
      var s, hour := ScanTo(a, k - 1, ios), a.disk.dir[k - 1];
      if s.failed then s else ScanSegment(s, hour, a.clock.uncertain, Pinned(a, hour), At(ios, k - 1, Fine))
  }

  function Scanned(a: Archive, s: Scan): Archive {
    a.(disk := a.disk.(files := s.files), deferred := s.deferred, gaps := s.gaps)
  }

  function Confirmed(a: Archive): Archive {
    a.(confirmed := a.index.committed)
  }

  /** A finished scan is adopted as the index; an error before that leaves the old one, still in need of recovery. */
  function Adopt(a: Archive, s: Scan, ending: Ending): (Archive, bool) {
    var scanned := Scanned(a, s);
    if s.failed || ending == BeforeIndexing then (scanned, false)
    else
      var indexed := Confirmed(scanned.(index := s.index));
      if ending == AfterIndexing then (indexed, false)
      else (indexed.(recoveryNeeded := false, ready := true), true)
  }

  function Recover(a: Archive, pass: Pass): (Archive, bool) {
    Adopt(a, ScanTo(a, |a.disk.dir|, pass.ios), pass.ending)
  }

  // ---------------------------------------------------------------- appending

  /** Complete lines written at the end: the first one completes, and so spoils, a torn one. */
  function Extended(f: File, rows: seq<Row>): File {
    if rows == [] then f
    else if f.torn then File(f.lines + [Garbage] + LinesOf(rows[1..]), false)
    else File(f.lines + LinesOf(rows), false)
  }

  function Torn(f: File, rows: seq<Row>, lines: nat, fragment: bool): File {
    if lines >= |rows| then Extended(f, rows)
    else
      var g := Extended(f, rows[..lines]);
      if fragment then g.(torn := true) else g
  }

  /** The directory listing with one more name, in sorted place. */
  function Insert(dir: seq<Hour>, hour: Hour): seq<Hour> {
    if dir == [] then [hour]
    else if hour == dir[0] then dir
    else if hour.number < dir[0].number then [hour] + dir
    else [dir[0]] + Insert(dir[1..], hour)
  }

  function Without(dir: seq<Hour>, hour: Hour): seq<Hour> {
    if dir == [] then []
    else if dir[0] == hour then Without(dir[1..], hour)
    else [dir[0]] + Without(dir[1..], hour)
  }

  function Stored(d: Disk, hour: Hour, f: File): Disk {
    Disk(d.files[hour := f], Insert(d.dir, hour))
  }

  datatype Batch = Batch(hour: Hour, rows: seq<Row>)
  datatype Fate = Goes | Halts | Breaks

  function AppendBatch(a: Archive, b: Batch, put: Put): (Archive, Fate) {
    var f := FileAt(a.disk.files, b.hour);
    match put
    case PutStop => (a.(stopping := true), Halts)
    case Refused => (a, Breaks)
    case Tore(lines, fragment) => (a.(disk := Stored(a.disk, b.hour, Torn(f, b.rows, lines, fragment))), Breaks)
    case Wrote =>
      var g, known := Extended(f, b.rows), if b.hour in a.index.ids then a.index.ids[b.hour] else {};
      var entered := Entered(a.index, b.hour, Size(g), known + IdsOf(b.rows));
      (Confirmed(a.(disk := Stored(a.disk, b.hour, g), index := entered)), Goes)
  }

  function AppendTo(a: Archive, batches: seq<Batch>, k: nat, puts: seq<Put>): (Archive, Fate)
    requires k <= |batches|
  {
    if k == 0 then (a, Goes)
    else
      var (before, fate) := AppendTo(a, batches, k - 1, puts);
      if fate != Goes then (before, fate)
      else if before.stopping then (before, Halts)
      else AppendBatch(before, batches[k - 1], At(puts, k - 1, Wrote))
  }

  // ---------------------------------------------------------------- gathering rows to append

  /** fits is false when a row cannot be serialized within the size limit. */
  datatype Candidate = Candidate(row: Row, fits: bool)
  datatype Gathered = Gathered(batches: seq<Batch>, pending: set<Identity>, future: bool)

  function AddTo(batches: seq<Batch>, row: Row): seq<Batch> {
    if batches == [] then [Batch(HourOf(row.ts), [row])]
    else if batches[0].hour == HourOf(row.ts) then [Batch(batches[0].hour, batches[0].rows + [row])] + batches[1..]
    else [batches[0]] + AddTo(batches[1..], row)
  }

  /** A row that may be written now: known time, unseen, recent and serializable. */
  predicate Wanted(g: Gathered, c: Candidate, committed: set<Identity>, now: int) {
    && c.row.ts <= now + CLOCK_JUMP && c.row.id !in committed && c.row.id !in g.pending
    && c.row.ts >= now - RETENTION && c.fits
  }

  function Consider(g: Gathered, c: Candidate, committed: set<Identity>, now: int): Gathered {
    if c.row.ts > now + CLOCK_JUMP then g.(future := true)
    else if Wanted(g, c, committed, now) then g.(batches := AddTo(g.batches, c.row), pending := g.pending + {c.row.id})
    else g
  }

  function Gather(rows: seq<Candidate>, committed: set<Identity>, now: int): Gathered {
    if rows == [] then Gathered([], {}, false)
    else Consider(Gather(rows[..|rows| - 1], committed, now), rows[|rows| - 1], committed, now)
  }

  // ---------------------------------------------------------------- pruning

  function Forgotten(x: Index, hour: Hour): Index {
    var was := if hour in x.ids then x.ids[hour] else {};
    Index(x.lengths - {hour}, x.ids - {hour}, Without(x.order, hour), x.committed - was)
  }

  function Unlinked(d: Disk, hour: Hour): Disk {
    Disk(d.files - {hour}, Without(d.dir, hour))
  }

  function Trimmed(x: Index, hour: Hour, f: File, ids: set<Identity>): Index {
    var before := if hour in x.ids then x.ids[hour] else {};
    x.(lengths := x.lengths[hour := Size(f)], ids := x.ids[hour := ids], committed := x.committed - (before - ids))
  }

  function Unlink(a: Archive, hour: Hour, io: Io): Archive {
    if io == FailsBefore then a.(recoveryNeeded := true)
    else
      var gone := a.(disk := Unlinked(a.disk, hour));
      if io == FailsAfter then gone.(recoveryNeeded := true) else gone.(index := Forgotten(a.index, hour))
  }

  function Trim(a: Archive, hour: Hour, cutoff: int, io: Io): Archive {
    var f := FileAt(a.disk.files, hour);
    var r := Replace(f, a.gaps, hour, Some(cutoff), {}, false, io);
    var trimmed := a.(disk := a.disk.(files := a.disk.files[hour := r.file]), gaps := r.gaps);
    if r.done then
      trimmed.(index := Trimmed(a.index, hour, r.file, IdsOf(Keep(f.lines, hour, Some(cutoff), {}))))
    else trimmed.(recoveryNeeded := true)
  }

  /** Trimming a segment that has vanished fails and leaves nothing new behind. */
  function PruneHour(a: Archive, hour: Hour, cutoff: int, io: Io): Archive {
    if Pinned(a, hour) || StartOf(hour) >= cutoff then a
    else if hour !in a.disk.files then a.(recoveryNeeded := true)
    else if EndOf(hour) <= cutoff then Unlink(a, hour, io)
    else Trim(a, hour, cutoff, io)
  }

  function SweepHour(a: Archive, hour: Hour, cutoff: int, sweep: Sweep): Archive {
    if a.stopping then a
    else if sweep.SweepStop? then a.(stopping := true)
    else PruneHour(a, hour, cutoff, sweep.io)
  }

  /** The pass over the first k of the segments listed at its start; it ends early once a stop is asked for. */
  function PruneTo(a: Archive, listed: seq<Hour>, k: nat, cutoff: int, sweeps: seq<Sweep>): Archive
    requires k <= |listed|
  {
    if k == 0 then a
    else
      SweepHour(PruneTo(a, listed, k - 1, cutoff, sweeps), listed[k - 1], cutoff, At(sweeps, k - 1, Does(Fine)))
  }

  function Prune(a: Archive, cutoff: int, sweeps: seq<Sweep>): Archive {
    PruneTo(a, a.index.order, |a.index.order|, cutoff, sweeps)
  }

  // ---------------------------------------------------------------- the clock

  /** What a flush may do: nothing after a failure, nothing under an unresolved clock, or act on a time. */
  datatype Verdict = Broke | Unresolved | Acts(now: int)

  function Copies(a: Archive): map<Hour, File> {
    map h | h in a.index.lengths :: FileAt(a.disk.files, h)
  }

  predicate Preservable(a: Archive) {
    |a.index.lengths| <= MAX_HISTORY_SEGMENTS && a.index.lengths.Keys <= a.disk.files.Keys
  }

  function Publish(history: seq<Epoch>, epoch: Epoch): seq<Epoch> {
    if epoch in history then history else history + [epoch]
  }

  function Reanchor(a: Archive, now: int, p: Probed): (Archive, Verdict) {
    var published := a.(history := Publish(a.history, Epoch(a.clock.wall, Copies(a))));
    if p.publication == FailsAfter then (published, Broke)
    else if !p.saved then (published.(clock := a.clock.(uncertain := true, attest := true)), Broke)
    else
      var trusted := published.(clock := Reanchored(a.clock, now, p.mono, p.elapsed));
      var (recovered, ok) := Recover(trusted, p.recovery);
      (recovered, if ok then Acts(now + p.elapsed) else Broke)
  }

  function RecoverClock(a: Archive, now: int, p: Probed): (Archive, Verdict) {
    if p.mono < a.clock.nextProbe then (a, Unresolved)
    else
      var probed := a.(clock := a.clock.(nextProbe := p.mono + FLUSH_INTERVAL));
      if !p.proof || p.elapsed < 0 || p.elapsed > PROBE_LIMIT then (probed, Unresolved)
      else if !Preservable(a) || p.publication == FailsBefore then (probed, Broke)
      else Reanchor(probed, now, p)
  }

  // ---------------------------------------------------------------- flushing

  function Checked(a: Archive, now: int, mono: int): Archive {
    var c := CheckTime(a.clock, now, mono);
    a.(clock := c.clock, gaps := NoteIf(a.gaps, c.noted, ClockDiscontinuity))
  }

  function Settle(a: Archive, pass: Pass, needed: bool): (Archive, bool) {
    if needed then Recover(a, pass) else (a, true)
  }

  function JudgeClock(a: Archive, now: int, w: Weather): (Archive, Verdict) {
    var checked, c := Checked(a, now, w.mono), CheckTime(a.clock, now, w.mono);
    if !w.checkSaved then (checked, Broke)
    else if c.sane then (checked, Acts(c.now))
    else RecoverClock(checked, now, w.probe)
  }

  /** Everything up to the point where a flush knows whether, and on what time, it may act. */
  function Judge(a: Archive, now: int, w: Weather): (Archive, Verdict) {
    var (settled, ok) := Settle(a, w.opening, a.recoveryNeeded);
    if !ok then (settled, Broke) else JudgeClock(settled, now, w)
  }

  function Broken(a: Archive): Archive {
    a.(recoveryNeeded := true)
  }

  function Append(a: Archive, rows: seq<Candidate>, now: int, puts: seq<Put>): (Archive, Fate) {
    var g := Gather(rows, a.index.committed, now);
    AppendTo(a.(gaps := NoteIf(a.gaps, g.future, DiscardedRecord)), g.batches, |g.batches|, puts)
  }

  function Write(a: Archive, rows: seq<Candidate>, now: int, w: Weather): (Archive, bool) {
    var (appended, fate) := Append(a, rows, now, w.puts);
    if fate == Breaks then (Broken(appended), false)
    else if fate == Halts then (appended, false)
    else
      var pruned := Prune(appended, now - RETENTION, w.sweeps);
      if w.saved then (Confirmed(pruned), true) else (Broken(pruned), false)
  }

  function Act(a: Archive, rows: seq<Candidate>, now: int, w: Weather): (Archive, bool) {
    var (repaired, ok) := Settle(a, w.repair, a.deferred);
    if !ok then (Broken(repaired), false) else Write(repaired, rows, now, w)
  }

  function Flush(a: Archive, rows: seq<Candidate>, now: int, w: Weather): (Archive, bool) {
    if a.stopping then (a, false)
    else
      var (judged, verdict) := Judge(a, now, w);
      match verdict
      case Broke => (Broken(judged), false)
      case Unresolved => (judged, true)
      case Acts(t) => Act(judged, rows, t, w)
  }
}
