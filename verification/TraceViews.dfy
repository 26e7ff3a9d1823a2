/** Over whole runs: the archive stays sound and tidy, views stay stable, pins and admissions balance. */
module TraceViews {
  import opened Options
  import opened TraceClock
  import opened TraceArchiveSpec
  import opened TraceRecovery
  import opened TraceAppending
  import opened TracePruning
  import opened TraceFlushing
  import opened TracePinning
  import opened TraceDownloadSpec

  // ---------------------------------------------------------------- the archive over a run

  ghost predicate SameContents(a: Archive, b: Archive) {
    && b.disk == a.disk && b.index == a.index && b.deferred == a.deferred
    && (!b.recoveryNeeded ==> !a.recoveryNeeded)
  }

  lemma SoundIsFramed(a: Archive, b: Archive)
    requires Sound(a) && SameContents(a, b)
    ensures Sound(b)
  {
    if !b.recoveryNeeded {
      MatchesIsFramed(a, b);
    }
  }

  lemma OpeningTouchesNothing(d: Desk, o: Opening)
    ensures SameContents(d.archive, Open(d, o).0.archive)
  {
    hide Openable, Found;
  }

  lemma ReadingTouchesNothing(d: Desk, v: Download)
    ensures SameContents(d.archive, Read(d, v).0.archive)
  {
  }

  lemma ClosingTouchesNothing(d: Desk, v: Download)
    ensures SameContents(d.archive, Close(d, v).0.archive)
  {
  }

  lemma BootingIsSound(a: Archive, clock: Clock)
    requires Sound(a)
    ensures Sound(Booted(a.disk, clock, a.history).desk.archive)
  {
  }

  lemma StepKeepsTheArchive(s: System, op: Op)
    requires Sound(s.desk.archive)
    ensures Sound(Apply(s, op).desk.archive)
    ensures Tidy(s.desk.archive.disk.files) ==> Tidy(Apply(s, op).desk.archive.disk.files)
  {
    hide Tidy, Flush, Sound, Open, Read, Close;
    var a := s.desk.archive;
    match op {
      case FlushOp(rows, now, weather) => FlushKeepsTheArchive(a, rows, now, weather);
      case OpenOp(opening) => 
        OpeningTouchesNothing(s.desk, opening);
        SoundIsFramed(a, Open(s.desk, opening).0.archive);
      case ReadOp(i) =>
        if i < |s.views| {
          ReadingTouchesNothing(s.desk, s.views[i]);
          SoundIsFramed(a, Read(s.desk, s.views[i]).0.archive);
        }
      case CloseOp(i) =>
        if i < |s.views| {
          ClosingTouchesNothing(s.desk, s.views[i]);
          SoundIsFramed(a, Close(s.desk, s.views[i]).0.archive);
        }
      case StopOp => SoundIsFramed(a, a.(stopping := true));
      case RestartOp(clock) => BootingIsSound(a, clock);
      case _ =>
    }
  }

  lemma {:induction false} RunKeepsTheArchive(s: System, ops: seq<Op>)
    requires Sound(s.desk.archive)
    ensures Sound(Run(s, ops).desk.archive)
    ensures Tidy(s.desk.archive.disk.files) ==> Tidy(Run(s, ops).desk.archive.disk.files)
  {
    hide Sound, Tidy, Apply;
    if ops != [] {
      RunKeepsTheArchive(s, ops[..|ops| - 1]);
      StepKeepsTheArchive(Run(s, ops[..|ops| - 1]), ops[|ops| - 1]);
    }
  }

  // ---------------------------------------------------------------- what a view should send

  /** The rows at or after the cutoff, in order. */
  function Recent(lines: seq<Line>, cutoff: int): seq<Row> {
    if lines == [] then []
    else (if lines[0].Whole? && lines[0].row.ts >= cutoff then [lines[0].row] else []) + Recent(lines[1..], cutoff)
  }

  function Captured(p: Piece): seq<Line> {
    p.found.lines[..Limit(p.range, p.found)]
  }

  /** The rows at or after the cutoff within the ranges captured at opening, in segment order. */
  function Stream(pieces: seq<Piece>, cutoff: int): seq<Row> {
    if pieces == [] then [] else Recent(Captured(pieces[0]), cutoff) + Stream(pieces[1..], cutoff)
  }

  /** What the reader has yet to send. */
  function Rest(v: Download): seq<Row> {
    if v.at >= |v.pieces| then []
    else
      var lines := Captured(v.pieces[v.at]);
      Recent(lines[if v.pos <= |lines| then v.pos else |lines|..], v.cutoff) + Stream(v.pieces[v.at + 1..], v.cutoff)
  }

  /** The captured ranges lie within the segments as they were found. */
  predicate InRange(v: Download) {
    forall i :: 0 <= i < |v.pieces| ==> v.pieces[i].range <= Size(v.pieces[i].found)
  }

  /** A view's segments are still there, and at most extended since it opened. */
  ghost predicate Held(a: Archive, v: Download) {
    forall i :: 0 <= i < |v.pieces| ==>
      v.pieces[i].hour in a.disk.files && Extends(v.pieces[i].found, a.disk.files[v.pieces[i].hour])
  }

  /** A reader at its place: what it sent and what remains make up the captured rows. */
  predicate OnTrack(v: Download) {
    && (v.at < |v.pieces| ==> v.pos <= |Captured(v.pieces[v.at])|)
    && v.sent + Rest(v) == Stream(v.pieces, v.cutoff)
  }

  ghost predicate Stable(a: Archive, v: Download) {
    (!v.closed ==> Held(a, v)) && (InRange(v) ==> OnTrack(v))
  }

  /** Within the range the segment as it is now reads as it did at opening. */
  lemma CapturedIsCurrent(p: Piece, f: File)
    requires Extends(p.found, f) && p.range <= Size(p.found)
    ensures f.lines[..Limit(p.range, f)] == Captured(p)
  {
  }

  lemma RecentOf(lines: seq<Line>, k: nat, cutoff: int)
    requires k < |lines|
    ensures
      Recent(lines[k..], cutoff) ==
      (if lines[k].Whole? && lines[k].row.ts >= cutoff then [lines[k].row] else []) + Recent(lines[k + 1..], cutoff)
  {
    assert lines[k..][0] == lines[k] && lines[k..][1..] == lines[k + 1..];
  }

  /** What the next line adds to a view of this cutoff. */
  function Sent(line: Line, cutoff: int): seq<Row> {
    if line.Whole? && line.row.ts >= cutoff then [line.row] else []
  }

  lemma RestAdvances(v: Download, line: Line)
    requires v.at < |v.pieces| && v.pos < |Captured(v.pieces[v.at])| && line == Captured(v.pieces[v.at])[v.pos]
    ensures Rest(v) == Sent(line, v.cutoff) + Rest(v.(pos := v.pos + 1))
  {
    hide Captured, Stream, Recent;
    var lines, tail := Captured(v.pieces[v.at]), Stream(v.pieces[v.at + 1..], v.cutoff);
    RecentOf(lines, v.pos, v.cutoff);
    var rest := Recent(lines[v.pos + 1..], v.cutoff);
    assert (Sent(line, v.cutoff) + rest) + tail == Sent(line, v.cutoff) + (rest + tail);
  }

  lemma RestIgnoresSent(v: Download, sent: seq<Row>)
    ensures Rest(v.(sent := sent)) == Rest(v)
  {
    hide Captured, Stream, Recent;
  }

  lemma LineAdvances(v: Download, line: Line)
    requires OnTrack(v) && v.at < |v.pieces| && v.pos < |Captured(v.pieces[v.at])|
    requires line == Captured(v.pieces[v.at])[v.pos]
    ensures OnTrack(v.(pos := v.pos + 1, sent := v.sent + Sent(line, v.cutoff)))
  {
    hide Captured, Stream, Rest, Sent;
    var next := v.(pos := v.pos + 1);
    RestAdvances(v, line);
    RestIgnoresSent(next, v.sent + Sent(line, v.cutoff));
    assert (v.sent + Sent(line, v.cutoff)) + Rest(next) == v.sent + (Sent(line, v.cutoff) + Rest(next));
  }

  lemma RecentOfNothing(lines: seq<Line>, cutoff: int)
    requires lines == []
    ensures Recent(lines, cutoff) == []
  {
  }

  lemma PieceAdvances(v: Download)
    requires OnTrack(v) && v.at < |v.pieces| && v.pos >= |Captured(v.pieces[v.at])|
    ensures OnTrack(v.(at := v.at + 1, pos := 0))
  {
    hide Captured, Recent;
    var lines := Captured(v.pieces[v.at]);
    RecentOfNothing(lines[|lines|..], v.cutoff);
    assert Rest(v) == Stream(v.pieces[v.at + 1..], v.cutoff);
    if v.at + 1 < |v.pieces| {
      var next := v.pieces[v.at + 1..];
      assert next[0] == v.pieces[v.at + 1] && next[1..] == v.pieces[v.at + 2..];
      assert Captured(next[0])[0..] == Captured(next[0]);
    }
  }

  lemma ClosingStaysOnTrack(d: Desk, v: Download)
    requires OnTrack(v)
    ensures OnTrack(Close(d, v).1)
  {
  }

  /** A read takes the next captured line, however the segments have grown since the view opened. */
  lemma ReadingStaysOnTrack(d: Desk, v: Download)
    requires !v.closed && Held(d.archive, v) && InRange(v) && OnTrack(v)
    ensures OnTrack(Read(d, v).1)
  {
    hide OnTrack, Captured;
    ClosingStaysOnTrack(d, v);
    if v.at < |v.pieces| {
      var p := v.pieces[v.at];
      var f := FileAt(d.archive.disk.files, p.hour);
      CapturedIsCurrent(p, f);
      var lines := Captured(p);
      assert Limit(p.range, f) == |lines|;
      if v.pos >= |lines| {
        PieceAdvances(v);
      } else {
        assert f.lines[v.pos] == lines[v.pos];
        LineAdvances(v, lines[v.pos]);
        assert v.sent + [] == v.sent;
      }
    }
  }

  // ---------------------------------------------------------------- counting pins and admissions

  function Uses(pieces: seq<Piece>, hour: Hour): nat {
    if pieces == [] then 0 else (if pieces[0].hour == hour then 1 else 0) + Uses(pieces[1..], hour)
  }

  function UsedBy(v: Download, hour: Hour): nat {
    if v.closed then 0 else Uses(v.pieces, hour)
  }

  function InUse(views: seq<Download>, hour: Hour): nat {
    if views == [] then 0 else UsedBy(views[0], hour) + InUse(views[1..], hour)
  }

  function OpenCount(views: seq<Download>): nat {
    if views == [] then 0 else (if views[0].closed then 0 else 1) + OpenCount(views[1..])
  }

  lemma {:induction false} PinningCounts(pins: map<Hour, nat>, pieces: seq<Piece>, hour: Hour)
    ensures PinsOf(PinAll(pins, pieces), hour) == PinsOf(pins, hour) + Uses(pieces, hour)
    decreases |pieces|
  {
    if pieces != [] {
      PinningCounts(pins[pieces[0].hour := PinsOf(pins, pieces[0].hour) + 1], pieces[1..], hour);
    }
  }

  ghost predicate Positive(pins: map<Hour, nat>) {
    forall h :: h in pins ==> pins[h] > 0
  }

  lemma {:induction false} PinningIsPositive(pins: map<Hour, nat>, pieces: seq<Piece>)
    requires Positive(pins)
    ensures Positive(PinAll(pins, pieces))
    decreases |pieces|
  {
    if pieces != [] {
      PinningIsPositive(pins[pieces[0].hour := PinsOf(pins, pieces[0].hour) + 1], pieces[1..]);
    }
  }

  lemma {:induction false} UnpinningCounts(pins: map<Hour, nat>, pieces: seq<Piece>)
    requires Positive(pins) && forall h :: PinsOf(pins, h) >= Uses(pieces, h)
    ensures Positive(UnpinAll(pins, pieces))
    ensures forall h :: PinsOf(UnpinAll(pins, pieces), h) == PinsOf(pins, h) - Uses(pieces, h)
    decreases |pieces|
  {
    if pieces != [] {
      var head, fewer := pieces[0].hour, Unpin(pins, pieces[0].hour);
      assert PinsOf(pins, head) >= Uses(pieces, head) >= 1;
      forall h ensures PinsOf(fewer, h) == PinsOf(pins, h) - (if h == head then 1 else 0) {
      }
      forall h ensures PinsOf(fewer, h) >= Uses(pieces[1..], h) {
        assert PinsOf(pins, h) >= Uses(pieces, h);
      }
      UnpinningCounts(fewer, pieces[1..]);
    }
  }

  lemma {:induction false} UpdatingCounts(views: seq<Download>, i: nat, v: Download, hour: Hour)
    requires i < |views|
    ensures InUse(views[i := v], hour) == InUse(views, hour) - UsedBy(views[i], hour) + UsedBy(v, hour)
    ensures InUse(views, hour) >= UsedBy(views[i], hour)
    ensures
      OpenCount(views[i := v]) ==
      OpenCount(views) - (if views[i].closed then 0 else 1) + if v.closed then 0 else 1
  {
    var updated := views[i := v];
    if i == 0 {
      assert updated[1..] == views[1..];
    } else {
      UpdatingCounts(views[1..], i - 1, v, hour);
      assert updated[1..] == views[1..][i - 1 := v];
    }
  }

  lemma {:induction false} AddingCounts(views: seq<Download>, v: Download, hour: Hour)
    ensures InUse(views + [v], hour) == InUse(views, hour) + UsedBy(v, hour)
    ensures OpenCount(views + [v]) == OpenCount(views) + if v.closed then 0 else 1
  {
    if views == [] {
      assert (views + [v])[1..] == [];
    } else {
      AddingCounts(views[1..], v, hour);
      assert (views + [v])[1..] == views[1..] + [v];
    }
  }

  lemma {:induction false} PieceIsUsed(pieces: seq<Piece>, j: nat)
    requires j < |pieces|
    ensures Uses(pieces, pieces[j].hour) >= 1
  {
    if j > 0 {
      PieceIsUsed(pieces[1..], j - 1);
    }
  }

  /** Pins count the open views of each segment; active downloads are the open views and the unopened reservations. */
  ghost predicate Balanced(s: System) {
    && (forall h :: PinsOf(s.desk.archive.pins, h) == InUse(s.views, h)) && Positive(s.desk.archive.pins)
    && s.waiting >= 0 && s.desk.active == s.waiting + OpenCount(s.views) && s.desk.active <= MAX_DOWNLOADS
    && (s.finished ==> s.desk.archive.stopping && s.desk.active == 0)
  }

  lemma OpenViewIsPinned(s: System, i: nat, j: nat)
    requires Balanced(s) && i < |s.views| && !s.views[i].closed && j < |s.views[i].pieces|
    ensures Pinned(s.desk.archive, s.views[i].pieces[j].hour)
  {
    var hour := s.views[i].pieces[j].hour;
    PieceIsUsed(s.views[i].pieces, j);
    UpdatingCounts(s.views, i, s.views[i], hour);
    assert PinsOf(s.desk.archive.pins, hour) == InUse(s.views, hour);
  }

  lemma OpeningBalances(s: System, o: Opening)
    requires Balanced(s)
    ensures Balanced(Apply(s, OpenOp(o)))
  {
    hide Found, Openable;
    var (desk, view) := Open(s.desk, o);
    if s.waiting > 0 && view.Some? {
      var v := view.value;
      var pins := s.desk.archive.pins;
      PinningIsPositive(pins, v.pieces);
      forall h ensures PinsOf(PinAll(pins, v.pieces), h) == InUse(s.views + [v], h) {
        PinningCounts(pins, v.pieces, h);
        AddingCounts(s.views, v, h);
        assert PinsOf(pins, h) == InUse(s.views, h);
      }
      AddingCounts(s.views, v, HourOf(0));
    } else {
      assert s.views + [] == s.views;
    }
  }

  lemma ClosingBalances(s: System, i: nat)
    requires Balanced(s) && i < |s.views|
    ensures
      var (desk, view) := Close(s.desk, s.views[i]);
      Balanced(s.(desk := desk, views := s.views[i := view]))
  {
    var v, pins := s.views[i], s.desk.archive.pins;
    if v.closed {
      assert s.views[i := v] == s.views;
    } else {
      var shut := v.(closed := true);
      forall h ensures PinsOf(pins, h) >= Uses(v.pieces, h) {
        UpdatingCounts(s.views, i, shut, h);
        assert PinsOf(pins, h) == InUse(s.views, h);
      }
      UnpinningCounts(pins, v.pieces);
      forall h ensures PinsOf(UnpinAll(pins, v.pieces), h) == InUse(s.views[i := shut], h) {
        UpdatingCounts(s.views, i, shut, h);
        assert PinsOf(pins, h) == InUse(s.views, h);
      }
      UpdatingCounts(s.views, i, shut, HourOf(0));
    }
  }

  /** A reader that moves without closing changes no count. */
  lemma MovingBalances(s: System, desk: Desk, i: nat, v: Download)
    requires Balanced(s) && i < |s.views| && v.closed == s.views[i].closed && v.pieces == s.views[i].pieces
    requires desk == s.desk.(archive := s.desk.archive.(gaps := desk.archive.gaps))
    ensures Balanced(s.(desk := desk, views := s.views[i := v]))
  {
    forall h ensures InUse(s.views[i := v], h) == InUse(s.views, h) {
      UpdatingCounts(s.views, i, v, h);
    }
    UpdatingCounts(s.views, i, v, HourOf(0));
  }

  lemma FlushingBalances(s: System, rows: seq<Candidate>, now: int, w: Weather)
    requires Balanced(s) && Sound(s.desk.archive)
    ensures Balanced(s.(desk := s.desk.(archive := Flush(s.desk.archive, rows, now, w).0)))
  {
    hide Judge, Act, Sound;
    FlushOnlyExtendsPinned(s.desk.archive, rows, now, w);
  }

  lemma StepBalances(s: System, op: Op)
    requires Balanced(s) && Sound(s.desk.archive)
    ensures Balanced(Apply(s, op))
  {
    hide Flush, Open, Sound, PinnedGrow;
    var a := s.desk.archive;
    match op {
      case FlushOp(rows, now, weather) =>
        FlushingBalances(s, rows, now, weather);
      case OpenOp(opening) => OpeningBalances(s, opening);
      case ReadOp(i) =>
        if i < |s.views| {
          var (desk, v) := Read(s.desk, s.views[i]);
          if s.views[i].closed || s.views[i].at >= |s.views[i].pieces| {
            ClosingBalances(s, i);
          } else {
            MovingBalances(s, desk, i, v);
          }
        }
      case CloseOp(i) =>
        if i < |s.views| {
          ClosingBalances(s, i);
        }
      case _ =>
    }
  }

  // ---------------------------------------------------------------- stable views over a run

  lemma {:induction false} PiecesAreFound(a: Archive, hours: seq<Hour>, cutoff: int, now: int)
    ensures forall i :: 0 <= i < |PiecesOf(a, hours, cutoff, now)| ==>
              var p := PiecesOf(a, hours, cutoff, now)[i];
              p.hour in hours && p.hour in a.index.lengths && p.range == a.index.lengths[p.hour]
              && p.found == FileAt(a.disk.files, p.hour)
  {
    if hours != [] {
      PiecesAreFound(a, hours[1..], cutoff, now);
    }
  }

  lemma OpenedIsFound(a: Archive, o: Opening)
    ensures forall i :: 0 <= i < |Found(a, o)| ==>
              var p := Found(a, o)[i];
              p.hour in a.index.lengths && p.range == a.index.lengths[p.hour]
              && p.found == FileAt(a.disk.files, p.hour)
  {
    PiecesAreFound(a, SortHours(a.index.order), TimeOf(a, o) - RETENTION, TimeOf(a, o));
  }

  lemma OpenedIsStable(d: Desk, o: Opening)
    ensures
      var (d', view) := Open(d, o);
      view.Some? ==> !view.value.closed && Stable(d'.archive, view.value)
  {
    hide Found;
    var view := Open(d, o).1;
    if view.Some? {
      var v := view.value;
      OpenedIsFound(d.archive, o);
      if v.pieces != [] {
        assert v.pieces[0..][0] == v.pieces[0];
        assert Captured(v.pieces[0])[0..] == Captured(v.pieces[0]);
      }
    }
  }

  ghost predicate StableViews(a: Archive, views: seq<Download>) {
    forall i :: 0 <= i < |views| ==> Stable(a, views[i])
  }

  ghost predicate Orderly(s: System) {
    Sound(s.desk.archive) && Balanced(s) && StableViews(s.desk.archive, s.views)
  }

  lemma StableIsFramed(a: Archive, b: Archive, v: Download)
    requires Stable(a, v) && b.disk == a.disk
    ensures Stable(b, v)
  {
  }

  lemma ViewsAreFramed(a: Archive, b: Archive, views: seq<Download>)
    requires StableViews(a, views) && b.disk == a.disk
    ensures StableViews(b, views)
  {
    hide Stable;
    forall i | 0 <= i < |views| ensures Stable(b, views[i]) {
      StableIsFramed(a, b, views[i]);
    }
  }

  lemma OpenSurvivesFlush(s: System, b: Archive, i: nat)
    requires Orderly(s) && i < |s.views| && PinnedGrow(s.desk.archive, b)
    ensures Stable(b, s.views[i])
  {
    hide Sound, OnTrack, Balanced;
    var v := s.views[i];
    assert Stable(s.desk.archive, v);
    if !v.closed {
      forall j | 0 <= j < |v.pieces|
        ensures v.pieces[j].hour in b.disk.files && Extends(v.pieces[j].found, b.disk.files[v.pieces[j].hour])
      {
        OpenViewIsPinned(s, i, j);
      }
    }
  }

  lemma ReadingIsStable(d: Desk, v: Download)
    requires Stable(d.archive, v)
    ensures Stable(Read(d, v).0.archive, Read(d, v).1) && Read(d, v).0.archive.disk == d.archive.disk
  {
    hide OnTrack;
    ReadingTouchesNothing(d, v);
    if !v.closed && InRange(v) {
      ReadingStaysOnTrack(d, v);
    }
  }

  lemma ClosingIsStable(d: Desk, v: Download)
    requires Stable(d.archive, v)
    ensures Stable(Close(d, v).0.archive, Close(d, v).1) && Close(d, v).0.archive.disk == d.archive.disk
  {
    if OnTrack(v) {
      ClosingStaysOnTrack(d, v);
    }
  }

  lemma StepKeepsViewsStable(s: System, op: Op)
    requires Orderly(s)
    ensures StableViews(Apply(s, op).desk.archive, Apply(s, op).views)
  {
    hide Flush, Open, Read, Close, Sound, Balanced, Stable, PinnedGrow;
    var a, b, views := s.desk.archive, Apply(s, op).desk.archive, s.views;
    match op {
      case FlushOp(rows, now, weather) =>
        FlushOnlyExtendsPinned(a, rows, now, weather);
        forall i | 0 <= i < |views| ensures Stable(b, views[i]) {
          OpenSurvivesFlush(s, b, i);
        }
      case OpenOp(opening) =>
        OpeningTouchesNothing(s.desk, opening);
        ViewsAreFramed(a, b, views);
        OpenedIsStable(s.desk, opening);
      case ReadOp(i) =>
        if i < |views| {
          ReadingIsStable(s.desk, views[i]);
          ViewsAreFramed(a, b, views);
        }
      case CloseOp(i) =>
        if i < |views| {
          ClosingIsStable(s.desk, views[i]);
          ViewsAreFramed(a, b, views);
        }
      case RestartOp(clock) =>
      case _ => ViewsAreFramed(a, b, views);
    }
  }

  lemma {:induction false} RunIsOrderly(s: System, ops: seq<Op>)
    requires Orderly(s)
    ensures Orderly(Run(s, ops))
  {
    hide Sound, Balanced, StableViews, Apply;
    if ops != [] {
      var before, op := Run(s, ops[..|ops| - 1]), ops[|ops| - 1];
      RunIsOrderly(s, ops[..|ops| - 1]);
      StepKeepsTheArchive(before, op);
      StepBalances(before, op);
      StepKeepsViewsStable(before, op);
    }
  }

  lemma BootedIsOrderly(d: Disk, clock: Clock, history: seq<Epoch>)
    requires Listing(d)
    ensures Orderly(Booted(d, clock, history))
  {
  }

  /**
   * At every moment of every run, a view whose ranges lie within the segments it opened has sent a prefix of the rows
   * captured at opening, and all of them once its reader has passed the last piece.
   */
  lemma ViewsAreStable(d: Disk, clock: Clock, history: seq<Epoch>, ops: seq<Op>, i: nat)
    requires Listing(d) && i < |Run(Booted(d, clock, history), ops).views|
    ensures
      var v := Run(Booted(d, clock, history), ops).views[i];
      InRange(v) ==>
        v.sent <= Stream(v.pieces, v.cutoff) && (v.at >= |v.pieces| ==> v.sent == Stream(v.pieces, v.cutoff))
  {
    hide Sound, Balanced, InRange;
    BootedIsOrderly(d, clock, history);
    RunIsOrderly(Booted(d, clock, history), ops);
    var s := Run(Booted(d, clock, history), ops);
    assert Stable(s.desk.archive, s.views[i]);
  }

  /** At every moment of every run: pins count open views, at most four downloads are active, cleanup waits for all. */
  lemma AdmissionsBalance(d: Disk, clock: Clock, history: seq<Epoch>, ops: seq<Op>)
    requires Listing(d)
    ensures Balanced(Run(Booted(d, clock, history), ops))
  {
    hide Sound, Balanced, StableViews;
    BootedIsOrderly(d, clock, history);
    RunIsOrderly(Booted(d, clock, history), ops);
  }

  // ---------------------------------------------------------------- when ranges are in range

  /** A view opened while no recovery is pending captures each of its segments whole. */
  lemma SettledViewIsInRange(d: Desk, o: Opening)
    requires Sound(d.archive) && !d.archive.recoveryNeeded && Open(d, o).1.Some?
    ensures
      var v := Open(d, o).1.value;
      InRange(v) && forall i :: 0 <= i < |v.pieces| ==> Captured(v.pieces[i]) == v.pieces[i].found.lines
  {
    hide Found;
    OpenedIsFound(d.archive, o);
  }

  lemma {:induction false} RecentOfLonger(lines: seq<Line>, row: Row, cutoff: int)
    requires row.ts >= cutoff
    ensures Recent(lines + [Whole(row)], cutoff) == Recent(lines, cutoff) + [row]
  {
    var longer := lines + [Whole(row)];
    if lines == [] {
      assert longer[1..] == [];
    } else {
      RecentOfLonger(lines[1..], row, cutoff);
      assert longer[1..] == lines[1..] + [Whole(row)];
    }
  }

  /**
   * The range of a segment that a view overlaps is safe from every later append to that segment exactly when it lies
   * within the segment found at opening.
   */
  lemma RangeIsStableWithinTheSegment(p: Piece, cutoff: int)
    requires !p.found.torn && EndOf(p.hour) > cutoff
    ensures
      p.range <= |p.found.lines| <==>
      forall rows :: Fit(Batch(p.hour, rows)) ==>
        Recent(Captured(p.(found := Extended(p.found, rows))), cutoff) == Recent(Captured(p), cutoff)
  {
    if p.range <= |p.found.lines| {
      forall rows ensures Captured(p.(found := Extended(p.found, rows))) == Captured(p) {
      }
    } else {
      var start := StartOf(p.hour);
      var later := Row(Identity(0, 1), if start >= cutoff then start else cutoff, 0);
      assert HourOf(later.ts) == p.hour;
      assert Fit(Batch(p.hour, [later]));
      var longer := p.(found := Extended(p.found, [later]));
      assert Captured(longer) == Captured(p) + [Whole(later)];
      RecentOfLonger(Captured(p), later, cutoff);
      assert Recent(Captured(longer), cutoff) != Recent(Captured(p), cutoff);
    }
  }

  lemma {:induction false} KeepDrops(lines: seq<Line>, hour: Hour, cutoff: Option<int>, i: nat)
    requires i < |lines| && !Eligible(lines[i], hour, cutoff)
    ensures |Keep(lines, hour, cutoff, {})| < |lines|
  {
    if i == |lines| - 1 {
      KeepMeans(lines[..i], hour, cutoff, {});
    } else {
      KeepDrops(lines[..|lines| - 1], hour, cutoff, i);
    }
  }

  /**
   * How a range comes to exceed its segment: a trim that reaches the disk and then fails leaves the old length indexed
   * and the store ready, so a view opened before the next recovery may send rows appended after it.
   */
  lemma FailedTrimLeavesALongRange(a: Archive, hour: Hour, cutoff: int, row: Row)
    requires Matches(a) && !a.deferred && Holds(a.disk.files, hour, row) && row.ts < cutoff
    ensures
      var b := Trim(a, hour, cutoff, FailsAfter);
      && b.recoveryNeeded && b.ready == a.ready
      && hour in b.index.lengths && b.index.lengths[hour] > Size(b.disk.files[hour])
  {
    hide Exact, OnDisk;
    var f := a.disk.files[hour];
    var i :| 0 <= i < |f.lines| && f.lines[i] == Whole(row);
    KeepDrops(f.lines, hour, Some(cutoff), i);
  }

  // ---------------------------------------------------------------- a complete download

  lemma {:induction false} SortingKeepsHours(hours: seq<Hour>)
    ensures Sorted(SortHours(hours)) && forall h :: h in SortHours(hours) <==> h in hours
  {
    if hours != [] {
      SortingKeepsHours(hours[1..]);
      InsertingLists(SortHours(hours[1..]), hours[0]);
      assert hours == [hours[0]] + hours[1..];
    }
  }

  lemma {:induction false} RecentHasTheRow(lines: seq<Line>, row: Row, cutoff: int)
    requires Whole(row) in lines && row.ts >= cutoff
    ensures row in Recent(lines, cutoff)
  {
    if lines[0] != Whole(row) {
      RecentHasTheRow(lines[1..], row, cutoff);
    }
  }

  lemma {:induction false} PiecesAreComplete(a: Archive, hours: seq<Hour>, cutoff: int, now: int, hour: Hour, row: Row)
    requires hour in hours && hour in a.index.lengths && Overlaps(hour, cutoff, now)
    requires row.ts >= cutoff && Holds(a.disk.files, hour, row) && a.index.lengths[hour] >= |a.disk.files[hour].lines|
    ensures row in Stream(PiecesOf(a, hours, cutoff, now), cutoff)
  {
    var pieces := PiecesOf(a, hours, cutoff, now);
    if hour == hours[0] {
      assert Captured(pieces[0]) == a.disk.files[hour].lines;
      RecentHasTheRow(a.disk.files[hour].lines, row, cutoff);
    } else {
      PiecesAreComplete(a, hours[1..], cutoff, now, hour, row);
      if |pieces| > 0 && pieces != PiecesOf(a, hours[1..], cutoff, now) {
        assert pieces[1..] == PiecesOf(a, hours[1..], cutoff, now);
      }
    }
  }

  lemma EverySegmentIsListed(a: Archive, hour: Hour)
    requires Sound(a) && !a.recoveryNeeded && hour in a.disk.files
    ensures hour in a.index.order && hour in a.index.lengths && a.index.lengths[hour] == Size(a.disk.files[hour])
  {
    hide Exact, OnDisk, Union;
    assert hour in a.index.ids;
  }

  /** A view opened while no recovery is pending captures every stored row from its cutoff up to the present. */
  lemma SettledViewIsComplete(d: Desk, o: Opening, hour: Hour, row: Row)
    requires Sound(d.archive) && !d.archive.recoveryNeeded && Open(d, o).1.Some?
    requires Holds(d.archive.disk.files, hour, row) && HourOf(row.ts) == hour
    requires TimeOf(d.archive, o) - RETENTION <= row.ts <= TimeOf(d.archive, o)
    ensures row in Stream(Open(d, o).1.value.pieces, Open(d, o).1.value.cutoff)
  {
    hide Sound, Openable, TimeOf, SortHours, PiecesOf, Stream, Sorted;
    var a := d.archive;
    EverySegmentIsListed(a, hour);
    SortingKeepsHours(a.index.order);
    PiecesAreComplete(a, SortHours(a.index.order), TimeOf(a, o) - RETENTION, TimeOf(a, o), hour, row);
  }

  lemma {:induction false} RecentIsDistinct(lines: seq<Line>, hour: Hour, cutoff: int)
    requires TidyLines(lines, hour)
    ensures Distinct(Recent(lines, cutoff)) && IdsOf(Recent(lines, cutoff)) <= Ids(lines, hour, None)
  {
    if lines != [] {
      var head, tail := lines[0], lines[1..];
      assert lines == [head] + tail;
      assert forall i :: 0 <= i < |tail| ==> tail[i] == lines[i + 1];
      RecentIsDistinct(tail, hour, cutoff);
      var rest := Recent(tail, cutoff);
      assert forall i :: 0 <= i < |rest| ==> rest[i].id in IdsOf(rest);
      assert head.row.id !in Ids(tail, hour, None);
      assert Ids(tail, hour, None) <= Ids(lines, hour, None);
    }
  }

  ghost predicate FoundIn(pieces: seq<Piece>, files: map<Hour, File>) {
    && (forall i :: 0 <= i < |pieces| ==> pieces[i].hour in files && pieces[i].found == files[pieces[i].hour])
    && (forall i, j :: 0 <= i < j < |pieces| ==> pieces[i].hour != pieces[j].hour)
  }

  predicate Among(pieces: seq<Piece>, id: Identity) {
    exists i :: 0 <= i < |pieces| && id in Ids(pieces[i].found.lines, pieces[i].hour, None)
  }

  lemma TakingIsTidy(lines: seq<Line>, n: nat, hour: Hour)
    requires n <= |lines| && TidyLines(lines, hour)
    ensures TidyLines(lines[..n], hour) && Ids(lines[..n], hour, None) <= Ids(lines, hour, None)
  {
  }

  lemma JoiningIsDistinct(rows: seq<Row>, rest: seq<Row>, ids: set<Identity>)
    requires Distinct(rows) && Distinct(rest)
    requires (forall r :: r in rows ==> r.id in ids) && forall r :: r in rest ==> r.id !in ids
    ensures Distinct(rows + rest)
  {
  }

  /** From a tidy archive a view captures no identity twice. */
  lemma {:induction false} StreamIsDistinct(pieces: seq<Piece>, files: map<Hour, File>, cutoff: int)
    requires Tidy(files) && FoundIn(pieces, files)
    ensures Distinct(Stream(pieces, cutoff))
    ensures forall r :: r in Stream(pieces, cutoff) ==> Among(pieces, r.id)
  {
    if pieces != [] {
      var p, others := pieces[0], pieces[1..];
      assert forall i :: 0 <= i < |others| ==> others[i] == pieces[i + 1];
      StreamIsDistinct(others, files, cutoff);
      TakingIsTidy(p.found.lines, Limit(p.range, p.found), p.hour);
      RecentIsDistinct(Captured(p), p.hour, cutoff);
      var rows, rest := Recent(Captured(p), cutoff), Stream(others, cutoff);
      forall r | r in rows ensures r.id in Ids(p.found.lines, p.hour, None) {
        assert r.id in IdsOf(rows);
      }
      forall r | r in rest ensures r.id !in Ids(p.found.lines, p.hour, None) && Among(pieces, r.id) {
        var i :| 0 <= i < |others| && r.id in Ids(others[i].found.lines, others[i].hour, None);
        assert others[i].hour != p.hour && r.id in Ids(pieces[i + 1].found.lines, pieces[i + 1].hour, None);
      }
      JoiningIsDistinct(rows, rest, Ids(p.found.lines, p.hour, None));
    }
  }

  ghost predicate Ascending(pieces: seq<Piece>) {
    forall i, j :: 0 <= i < j < |pieces| ==> pieces[i].hour.number < pieces[j].hour.number
  }

  lemma LeadingAscends(p: Piece, rest: seq<Piece>)
    requires Ascending(rest) && forall q :: q in rest ==> p.hour.number < q.hour.number
    ensures Ascending([p] + rest)
  {
    var pieces := [p] + rest;
    forall i, j | 0 <= i < j < |pieces| ensures pieces[i].hour.number < pieces[j].hour.number {
      assert pieces[j] == rest[j - 1] && pieces[j] in rest;
    }
  }

  lemma LeadingAscendsAlone()
    ensures Ascending([])
  {
  }

  lemma {:induction false} PiecesAscend(a: Archive, hours: seq<Hour>, cutoff: int, now: int)
    requires Sorted(hours)
    ensures Ascending(PiecesOf(a, hours, cutoff, now))
    ensures forall p :: p in PiecesOf(a, hours, cutoff, now) ==> p.hour in hours
  {
    hide Ascending;
    if hours == [] {
      LeadingAscendsAlone();
    } else {
      var tail, rest := hours[1..], PiecesOf(a, hours[1..], cutoff, now);
      assert forall i :: 0 <= i < |tail| ==> tail[i] == hours[i + 1];
      PiecesAscend(a, tail, cutoff, now);
      assert forall h :: h in tail ==> hours[0].number < h.number && h in hours;
      if Overlaps(hours[0], cutoff, now) && hours[0] in a.index.lengths {
        LeadingAscends(Piece(hours[0], a.index.lengths[hours[0]], FileAt(a.disk.files, hours[0])), rest);
      }
    }
  }

  lemma OpenedPieces(d: Desk, o: Opening)
    requires Open(d, o).1.Some?
    ensures
      var v := Open(d, o).1.value;
      && v.pieces == Found(d.archive, o) && v.cutoff == TimeOf(d.archive, o) - RETENTION
      && AllThere(d.archive, Found(d.archive, o))
  {
    hide Found;
  }

  lemma FoundAscend(a: Archive, o: Opening)
    ensures Ascending(Found(a, o))
  {
    hide TimeOf, PiecesOf, Ascending, Sorted, SortHours;
    SortingKeepsHours(a.index.order);
    PiecesAscend(a, SortHours(a.index.order), TimeOf(a, o) - RETENTION, TimeOf(a, o));
  }

  /** A download of a tidy archive sends its segments in order and no identity twice. */
  lemma TidyViewSendsEachRowOnce(d: Desk, o: Opening)
    requires Tidy(d.archive.disk.files) && Open(d, o).1.Some?
    ensures
      var v := Open(d, o).1.value;
      Distinct(Stream(v.pieces, v.cutoff)) && Ascending(v.pieces)
  {
    hide Tidy, Stream, TimeOf, Found, Distinct, Open;
    var a, pieces := d.archive, Found(d.archive, o);
    OpenedPieces(d, o);
    FoundAscend(a, o);
    OpenedIsFound(a, o);
    assert FoundIn(pieces, a.disk.files);
    StreamIsDistinct(pieces, a.disk.files, TimeOf(a, o) - RETENTION);
  }
}
