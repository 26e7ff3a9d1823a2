/** A run in which a view sends a row stored after it opened: its range comes from before a trim that failed late. */
module TraceStaleRange {
  import opened Options
  import opened TraceClock
  import opened TraceArchiveSpec
  import opened TraceRecovery
  import opened TraceDownloadSpec
  import opened TraceViews

  const MINUTE: int := 60 * SECOND
  const SEGMENT: Hour := Hour(0)

  /** Two rows are stored at 00:30. At 00:10 a day later the first has expired; the third arrives after that. */
  const EXPIRED: Row := Row(Identity(1, 1), 0, 0)
  const RECENT_ROW: Row := Row(Identity(1, 2), 30 * MINUTE, 0)
  const LATE_ROW: Row := Row(Identity(1, 3), 40 * MINUTE, 0)
  const EARLY: int := 30 * MINUTE
  const LATE: int := RETENTION + 10 * MINUTE

  const FRESH_CLOCK: Clock := Clock(None, 0, false, false, 0)
  const EARLY_CLOCK: Clock := Clock(Some(EARLY), 0, false, false, 0)
  const LATE_CLOCK: Clock := Clock(Some(LATE), LATE - EARLY, false, false, 0)

  /** A flush in which nothing fails but, perhaps, its sweeps. */
  function Calm(mono: int, sweeps: seq<Sweep>): Weather {
    Weather(Pass([], Finished), mono, true, Probed(0, false, 0, Fine, true, Pass([], Finished)), Pass([], Finished),
            [], sweeps, true)
  }

  const STORES: Op := FlushOp([Candidate(EXPIRED, true), Candidate(RECENT_ROW, true)], EARLY, Calm(0, []))
  const TRIMS: Op := FlushOp([], LATE, Calm(LATE - EARLY, [Does(FailsAfter)]))
  const OPENS: Op := OpenOp(Opening(LATE, LATE - EARLY, true, false, true))
  const STORES_LATE: Op := FlushOp([Candidate(LATE_ROW, true)], LATE, Calm(LATE - EARLY, []))

  // ---------------------------------------------------------------- the archive on its way

  /** One segment with these rows, indexed with this length and these identities. */
  function Holding(rows: seq<Row>, length: nat, ids: set<Identity>, needed: bool, pins: map<Hour, nat>, clock: Clock)
    : Archive
  {
    Archive(Disk(map[SEGMENT := File(LinesOf(rows), false)], [SEGMENT]),
            Index(map[SEGMENT := length], map[SEGMENT := ids], [SEGMENT], ids),
            needed, false, true, false, pins, {}, clock, [], ids)
  }

  const BOTH: seq<Row> := [EXPIRED, RECENT_ROW]
  const STORED: Archive := Holding(BOTH, 2, IdsOf(BOTH), false, map[], EARLY_CLOCK)
  const TRIMMED: Archive := Holding([RECENT_ROW], 2, IdsOf(BOTH), true, map[], LATE_CLOCK)
  const PINNED: Archive := TRIMMED.(pins := map[SEGMENT := 1])
  const RECOVERED: Archive := Holding([RECENT_ROW], 1, IdsOf([RECENT_ROW]), false, map[SEGMENT := 1], LATE_CLOCK)
  const LONGER: Archive :=
    Holding([RECENT_ROW, LATE_ROW], 2, IdsOf([RECENT_ROW]) + IdsOf([LATE_ROW]), false, map[SEGMENT := 1], LATE_CLOCK)
  const VIEW: Download :=
    Download([Piece(SEGMENT, 2, File(LinesOf([RECENT_ROW]), false))], 10 * MINUTE, 0, 0, [], false)

  lemma TimesAgree()
    ensures HourOf(0) == HourOf(30 * MINUTE) == HourOf(40 * MINUTE) == SEGMENT
    ensures LATE - RETENTION == 10 * MINUTE && StartOf(SEGMENT) == 0 && EndOf(SEGMENT) == 60 * MINUTE
  {
  }

  /** The two rows make one batch for a segment that is not there yet. */
  lemma FirstGathers()
    ensures
      Gather([Candidate(EXPIRED, true), Candidate(RECENT_ROW, true)], {}, EARLY) ==
      Gathered([Batch(SEGMENT, BOTH)], IdsOf(BOTH), false)
  {
    var c, d := Candidate(EXPIRED, true), Candidate(RECENT_ROW, true);
    TimesAgree();
    assert [c, d][..1] == [c] && [c][..0] == [];
    assert [EXPIRED] + [RECENT_ROW] == BOTH;
    var one := Gathered([Batch(SEGMENT, [EXPIRED])], {EXPIRED.id}, false);
    assert Gather([c], {}, EARLY) == one;
    assert IdsOf(BOTH) == {EXPIRED.id} + {RECENT_ROW.id};
    assert [Batch(SEGMENT, [EXPIRED])][1..] == [];
    assert AddTo(one.batches, RECENT_ROW) == [Batch(SEGMENT, BOTH)];
  }

  lemma FirstFlush()
    ensures Apply(Booted(Disk(map[], []), FRESH_CLOCK, []), STORES) == System(Desk(STORED, 0), 0, [], false)
  {
    var w, empty := Calm(0, []), Booted(Disk(map[], []), FRESH_CLOCK, []).desk.archive;
    var ready := empty.(recoveryNeeded := false, ready := true, clock := EARLY_CLOCK);
    assert Judge(empty, EARLY, w) == (ready, Acts(EARLY));
    FirstGathers();
    var batch := Batch(SEGMENT, BOTH);
    assert LinesOf(BOTH) == [] + LinesOf(BOTH);
    assert Stored(ready.disk, SEGMENT, File(LinesOf(BOTH), false)) == STORED.disk;
    assert {} + IdsOf(BOTH) == IdsOf(BOTH) && [] + [SEGMENT] == [SEGMENT];
    assert Entered(ready.index, SEGMENT, 2, IdsOf(BOTH)) == STORED.index;
    assert AppendBatch(ready, batch, Wrote) == (STORED, Goes);
    assert AppendTo(ready, [batch], 1, []) == (STORED, Goes);
    assert Append(ready, STORES.rows, EARLY, []) == (STORED, Goes);
    assert PruneTo(STORED, [SEGMENT], 1, EARLY - RETENTION, []) == STORED;
  }

  lemma TrimLeaves()
    ensures Keep(LinesOf(BOTH), SEGMENT, Some(10 * MINUTE), {}) == [RECENT_ROW]
  {
    var lines := LinesOf(BOTH);
    TimesAgree();
    assert lines == [Whole(EXPIRED), Whole(RECENT_ROW)];
    assert lines[..1] == [Whole(EXPIRED)] && lines[..1][..0] == [];
    assert Keep(lines[..1], SEGMENT, Some(10 * MINUTE), {}) == [];
  }

  /** The rewrite reaches the disk and then fails: one row is left of the two that are indexed. */
  lemma FailedTrim()
    ensures Apply(System(Desk(STORED, 0), 0, [], false), TRIMS) == System(Desk(TRIMMED, 0), 0, [], false)
  {
    var checked := STORED.(clock := LATE_CLOCK);
    TimesAgree();
    assert Judge(STORED, LATE, TRIMS.weather) == (checked, Acts(LATE));
    assert Append(checked, [], LATE, []) == (checked, Goes);
    TrimLeaves();
    var f := checked.disk.files[SEGMENT];
    assert Kept(f, SEGMENT, Some(10 * MINUTE), {}) == File(LinesOf([RECENT_ROW]), false);
    assert checked.disk.files[SEGMENT := File(LinesOf([RECENT_ROW]), false)] == TRIMMED.disk.files;
    assert forall l :: l in f.lines ==> l.Whole?;
    assert Trim(checked, SEGMENT, 10 * MINUTE, FailsAfter) == TRIMMED;
    assert PruneTo(checked, [SEGMENT], 1, 10 * MINUTE, [Does(FailsAfter)]) == TRIMMED;
  }

  lemma OpensOnTheStaleRange()
    ensures
      Apply(Apply(System(Desk(TRIMMED, 0), 0, [], false), ReserveOp), OPENS) ==
      System(Desk(PINNED, 1), 0, [VIEW], false)
  {
    TimesAgree();
    assert Checked(TRIMMED, LATE, LATE - EARLY) == TRIMMED;
    assert SortHours([SEGMENT]) == [SEGMENT];
    assert PiecesOf(TRIMMED, [SEGMENT], 10 * MINUTE, LATE) == VIEW.pieces;
    assert PinAll(map[], VIEW.pieces) == map[SEGMENT := 1];
    assert [] + [VIEW] == [VIEW];
    assert Open(Desk(TRIMMED, 1), OPENS.opening) == (Desk(PINNED, 1), Some(VIEW));
  }

  lemma RecoveryCorrectsTheIndex()
    ensures Recover(PINNED, Pass([], Finished)) == (RECOVERED, true)
  {
    var lines := LinesOf([RECENT_ROW]);
    TimesAgree();
    assert lines == [Whole(RECENT_ROW)] && lines[..0] == [];
    assert Keep(lines, SEGMENT, None, {}) == [RECENT_ROW];
    assert {} + IdsOf([RECENT_ROW]) == IdsOf([RECENT_ROW]) && [] + [SEGMENT] == [SEGMENT];
    var s := ScanTo(PINNED, 1, []);
    assert s == Indexed(ScanTo(PINNED, 0, []), SEGMENT, IdsOf([RECENT_ROW]));
    assert s.index == RECOVERED.index;
  }

  lemma LateRowIsAppended()
    ensures Write(RECOVERED, [Candidate(LATE_ROW, true)], LATE, Calm(LATE - EARLY, [])) == (LONGER, true)
  {
    var rows, batch := [Candidate(LATE_ROW, true)], Batch(SEGMENT, [LATE_ROW]);
    TimesAgree();
    assert rows[..0] == [];
    assert LATE_ROW.id !in IdsOf([RECENT_ROW]);
    assert Gather(rows, IdsOf([RECENT_ROW]), LATE) == Gathered([batch], {LATE_ROW.id}, false);
    assert LinesOf([RECENT_ROW]) + LinesOf([LATE_ROW]) == LinesOf([RECENT_ROW, LATE_ROW]);
    assert Stored(RECOVERED.disk, SEGMENT, LONGER.disk.files[SEGMENT]) == LONGER.disk;
    var ids := IdsOf([RECENT_ROW]) + IdsOf([LATE_ROW]);
    assert IdsOf([RECENT_ROW]) + ids == ids;
    assert RECOVERED.index.lengths[SEGMENT := 2] == LONGER.index.lengths;
    assert Entered(RECOVERED.index, SEGMENT, 2, ids) == LONGER.index;
    assert AppendBatch(RECOVERED, batch, Wrote) == (LONGER, Goes);
    assert AppendTo(RECOVERED, [batch], 1, []) == (LONGER, Goes);
    assert PruneTo(LONGER, [SEGMENT], 1, LATE - RETENTION, []) == LONGER;
  }

  lemma LateFlush()
    ensures Apply(System(Desk(PINNED, 1), 0, [VIEW], false), STORES_LATE) == System(Desk(LONGER, 1), 0, [VIEW], false)
  {
    hide Recover, Write;
    RecoveryCorrectsTheIndex();
    LateRowIsAppended();
    assert Checked(RECOVERED, LATE, LATE - EARLY) == RECOVERED;
  }

  lemma SendsBoth()
    ensures
      var s := System(Desk(LONGER, 1), 0, [VIEW], false);
      Apply(Apply(s, ReadOp(0)), ReadOp(0)).views == [VIEW.(pos := 2, sent := [RECENT_ROW, LATE_ROW])]
  {
    var s := System(Desk(LONGER, 1), 0, [VIEW], false);
    assert LinesOf([RECENT_ROW, LATE_ROW]) == [Whole(RECENT_ROW), Whole(LATE_ROW)];
    assert [] + [RECENT_ROW] == [RECENT_ROW];
    assert Read(s.desk, VIEW) == (s.desk, VIEW.(pos := 1, sent := [RECENT_ROW]));
    assert Apply(s, ReadOp(0)).views == [VIEW.(pos := 1, sent := [RECENT_ROW])];
    assert [RECENT_ROW] + [LATE_ROW] == [RECENT_ROW, LATE_ROW];
  }

  lemma ViewStream()
    ensures Stream(VIEW.pieces, VIEW.cutoff) == [RECENT_ROW]
  {
    var lines, rest := Captured(VIEW.pieces[0]), VIEW.pieces[1..];
    assert lines == [Whole(RECENT_ROW)] && lines[1..] == [] && rest == [];
    assert Recent(lines, VIEW.cutoff) == [RECENT_ROW];
    assert Stream(rest, VIEW.cutoff) == [];
  }

  const OPENING_RUN: seq<Op> := [STORES, TRIMS, ReserveOp, OPENS]

  lemma RunsOn(s: System, ops: seq<Op>, op: Op)
    ensures Run(s, ops + [op]) == Apply(Run(s, ops), op)
  {
    assert (ops + [op])[..|ops|] == ops;
  }

  lemma RunOfNothing(s: System)
    ensures Run(s, []) == s
  {
  }

  lemma OpeningRun()
    ensures Run(Booted(Disk(map[], []), FRESH_CLOCK, []), OPENING_RUN) == System(Desk(PINNED, 1), 0, [VIEW], false)
  {
    hide Apply, Run;
    var s := Booted(Disk(map[], []), FRESH_CLOCK, []);
    FirstFlush();
    FailedTrim();
    OpensOnTheStaleRange();
    RunsOn(s, [], STORES);
    RunsOn(s, [STORES], TRIMS);
    RunsOn(s, [STORES, TRIMS], ReserveOp);
    RunsOn(s, [STORES, TRIMS, ReserveOp], OPENS);
    assert Run(s, []) == s by {
      RunOfNothing(s);
    }
    assert [] + [STORES] == [STORES] && [STORES] + [TRIMS] == [STORES, TRIMS];
    assert [STORES, TRIMS] + [ReserveOp] == [STORES, TRIMS, ReserveOp];
    assert [STORES, TRIMS, ReserveOp] + [OPENS] == OPENING_RUN;
  }

  /**
   * A view that is not in range: from an empty disk, a trim fails after it reached the disk, a download opens on the
   * length indexed before the trim, a late row is stored in the segment, and two reads send it. The row was not there
   * when the view opened.
   */
  lemma StaleRangeSendsALaterRow()
    ensures
      var boot := Booted(Disk(map[], []), FRESH_CLOCK, []);
      var begun, read := Run(boot, OPENING_RUN), Run(boot, OPENING_RUN + [STORES_LATE] + [ReadOp(0)] + [ReadOp(0)]);
      && |begun.views| == |read.views| == 1 && read.views[0].pieces == begun.views[0].pieces
      && Stream(begun.views[0].pieces, begun.views[0].cutoff) == [RECENT_ROW]
      && !OnDisk(begun.desk.archive.disk.files, LATE_ROW.id)
      && read.views[0].sent == [RECENT_ROW, LATE_ROW]
  {
    hide Apply, Run, Stream;
    var s := Booted(Disk(map[], []), FRESH_CLOCK, []);
    OpeningRun();
    LateFlush();
    SendsBoth();
    ViewStream();
    RunsOn(s, OPENING_RUN, STORES_LATE);
    RunsOn(s, OPENING_RUN + [STORES_LATE], ReadOp(0));
    RunsOn(s, OPENING_RUN + [STORES_LATE] + [ReadOp(0)], ReadOp(0));
    assert LinesOf([RECENT_ROW]) == [Whole(RECENT_ROW)];
  }
}
