/** Downloads of the last 24 hours: views pinned to the ranges that each segment had when they opened. */
module TraceDownloadSpec {
  import opened Options
  import opened TraceClock
  import opened TraceArchiveSpec

  const MAX_DOWNLOADS: int := 4
  const MAX_DOWNLOAD_SEGMENTS: nat := 25

  /** A pinned segment, the length it was indexed with, and, for reference, what it held when it was opened. */
  datatype Piece = Piece(hour: Hour, range: nat, found: File)
  /** A view and its reader: the piece and line reached, and the rows sent so far. */
  datatype Download = Download(pieces: seq<Piece>, cutoff: int, at: nat, pos: nat, sent: seq<Row>, closed: bool)
  /** The store and its count of active downloads. */
  datatype Desk = Desk(archive: Archive, active: int)
  datatype Opening = Opening(now: int, mono: int, saved: bool, late: bool, opens: bool)

  // ---------------------------------------------------------------- pins

  function PinsOf(pins: map<Hour, nat>, hour: Hour): nat {
    if hour in pins then pins[hour] else 0
  }

  function PinAll(pins: map<Hour, nat>, pieces: seq<Piece>): map<Hour, nat>
    decreases |pieces|
  {
    if pieces == [] then pins
    else PinAll(pins[pieces[0].hour := PinsOf(pins, pieces[0].hour) + 1], pieces[1..])
  }

  function Unpin(pins: map<Hour, nat>, hour: Hour): map<Hour, nat> {
    if PinsOf(pins, hour) <= 1 then pins - {hour} else pins[hour := pins[hour] - 1]
  }

  function UnpinAll(pins: map<Hour, nat>, pieces: seq<Piece>): map<Hour, nat>
    decreases |pieces|
  {
    if pieces == [] then pins else UnpinAll(Unpin(pins, pieces[0].hour), pieces[1..])
  }

  // ---------------------------------------------------------------- opening

  function Reserve(d: Desk): (Desk, bool) {
    if d.archive.stopping || d.active >= MAX_DOWNLOADS then (d, false) else (d.(active := d.active + 1), true)
  }

  function Release(d: Desk): Desk {
    d.(active := d.active - 1)
  }

  function SortHours(hours: seq<Hour>): seq<Hour> {
    if hours == [] then [] else Insert(SortHours(hours[1..]), hours[0])
  }

  /** Wholly expired and wholly future segments are left out. */
  predicate Overlaps(hour: Hour, cutoff: int, now: int) {
    EndOf(hour) > cutoff && StartOf(hour) <= now
  }

  function PiecesOf(a: Archive, hours: seq<Hour>, cutoff: int, now: int): seq<Piece> {
    if hours == [] then []
    else
      var rest := PiecesOf(a, hours[1..], cutoff, now);
      if Overlaps(hours[0], cutoff, now) && hours[0] in a.index.lengths
      then [Piece(hours[0], a.index.lengths[hours[0]], FileAt(a.disk.files, hours[0]))] + rest
      else rest
  }

  predicate AllThere(a: Archive, pieces: seq<Piece>) {
    forall i :: 0 <= i < |pieces| ==> pieces[i].hour in a.disk.files
  }

  function TimeOf(a: Archive, o: Opening): int {
    CheckTime(a.clock, o.now, o.mono).now
  }

  /** The pieces that a view opened now would pin. */
  function Found(a: Archive, o: Opening): seq<Piece> {
    PiecesOf(a, SortHours(a.index.order), TimeOf(a, o) - RETENTION, TimeOf(a, o))
  }

  predicate Openable(a: Archive, o: Opening) {
    var checked, pieces := Checked(a, o.now, o.mono), Found(a, o);
    && a.ready && !a.stopping && !o.late && o.saved && o.opens
    && !(checked.clock.uncertain && checked.clock.wall.None?)
    && |pieces| <= MAX_DOWNLOAD_SEGMENTS && AllThere(a, pieces)
  }

  /** A refusal gives the reservation back; the clock may have been checked before it. */
  function Open(d: Desk, o: Opening): (Desk, Option<Download>) {
    var a := d.archive;
    var checked := if a.ready && !a.stopping && !o.late then Checked(a, o.now, o.mono) else a;
    if !Openable(a, o) then (Release(d.(archive := checked)), None)
    else
      var pieces := Found(a, o);
      (d.(archive := checked.(pins := PinAll(a.pins, pieces))),
       Some(Download(pieces, TimeOf(a, o) - RETENTION, 0, 0, [], false)))
  }

  // ---------------------------------------------------------------- reading and closing

  function Limit(range: nat, f: File): nat {
    if range <= |f.lines| then range else |f.lines|
  }

  function Close(d: Desk, v: Download): (Desk, Download) {
    if v.closed then (d, v)
    else
      (Release(d.(archive := d.archive.(pins := UnpinAll(d.archive.pins, v.pieces)))), v.(closed := true))
  }

  function Noted(d: Desk, seen: bool): Desk {
    d.(archive := d.archive.(gaps := NoteIf(d.archive.gaps, seen, DiscardedRecord)))
  }

  /** One step of the reader, over the segment as it is now; past the last piece the view closes itself. */
  function Read(d: Desk, v: Download): (Desk, Download) {
    if v.closed || v.at >= |v.pieces| then Close(d, v)
    else
      var p := v.pieces[v.at];
      var f := FileAt(d.archive.disk.files, p.hour);
      if v.pos >= Limit(p.range, f) then
        (Noted(d, f.torn && p.range > |f.lines|), v.(at := v.at + 1, pos := 0))
      else
        var line := f.lines[v.pos];
        var sent := if line.Whole? && line.row.ts >= v.cutoff then v.sent + [line.row] else v.sent;
        (Noted(d, line.Garbage?), v.(pos := v.pos + 1, sent := sent))
  }

  // ---------------------------------------------------------------- runs

  /** One process: its store, its reservations not yet opened, and every view it has opened. */
  datatype System = System(desk: Desk, waiting: int, views: seq<Download>, finished: bool)

  datatype Op =
    | FlushOp(rows: seq<Candidate>, now: int, weather: Weather)
    | ReserveOp
    | OpenOp(opening: Opening)
    | ReadOp(view: nat)
    | CloseOp(view: nat)
    | StopOp
    | FinishOp
    | RestartOp(clock: Clock)

  function Booted(d: Disk, clock: Clock, history: seq<Epoch>): System {
    System(Desk(Archive(d, NOTHING, true, false, false, false, map[], {}, clock, history, {}), 0), 0, [], false)
  }

  /** A crash or restart leaves the disk alone; cleanup waits for a stop and for every active download. */
  function Apply(s: System, op: Op): System {
    var a := s.desk.archive;
    match op
    case FlushOp(rows, now, weather) => s.(desk := s.desk.(archive := Flush(a, rows, now, weather).0))
    case ReserveOp =>
      var (desk, ok) := Reserve(s.desk);
      s.(desk := desk, waiting := s.waiting + if ok then 1 else 0)
    case OpenOp(opening) =>
      if s.waiting <= 0 then s
      else
        var (desk, view) := Open(s.desk, opening);
        s.(desk := desk, waiting := s.waiting - 1, views := s.views + if view.Some? then [view.value] else [])
    case ReadOp(i) =>
      if i >= |s.views| then s
      else
        var (desk, view) := Read(s.desk, s.views[i]);
        s.(desk := desk, views := s.views[i := view])
    case CloseOp(i) =>
      if i >= |s.views| then s
      else
        var (desk, view) := Close(s.desk, s.views[i]);
        s.(desk := desk, views := s.views[i := view])
    case StopOp => s.(desk := s.desk.(archive := a.(stopping := true)))
    case FinishOp => if a.stopping && s.desk.active == 0 then s.(finished := true) else s
    case RestartOp(clock) => Booted(a.disk, clock, a.history)
  }

  function Run(s: System, ops: seq<Op>): System {
    if ops == [] then s else Apply(Run(s, ops[..|ops| - 1]), ops[|ops| - 1])
  }
}
