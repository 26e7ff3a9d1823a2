/** The archive's trust in wall time: an anchor, a bounded drift check and corroborated recovery. */
module TraceClock {
  import opened Options

  const SECOND: int := 1_000_000  // instants and clocks count microseconds
  const CLOCK_JUMP: int := 300 * SECOND
  const FLUSH_INTERVAL: int := 900 * SECOND
  const PROBE_LIMIT: int := 12 * SECOND

  datatype Clock = Clock(wall: Option<int>, mono: int, uncertain: bool, attest: bool, nextProbe: int)

  /** noted says that the check records a clock discontinuity. */
  datatype Check = Check(clock: Clock, now: int, sane: bool, noted: bool)

  function Abs(x: int): int {
    if x < 0 then -x else x
  }

  /** Where the anchor and the monotonic clock put the present. */
  function Expected(c: Clock, now: int, mono: int): int {
    if c.wall.None? then now else c.wall.value + (mono - c.mono)
  }

  function CheckTime(c: Clock, now: int, mono: int): Check {
    if c.wall.None? && c.uncertain then Check(c, now, false, false)
    else
      var expected := Expected(c, now, mono);
      if !c.attest && mono >= c.mono && Abs(now - expected) <= CLOCK_JUMP
      then Check(c.(wall := Some(now), mono := mono, uncertain := false), now, true, false)
      else Check(c.(uncertain := true), expected, false, true)
  }

  /** The anchor that corroboration installs, some elapsed time after the probe began. */
  function Reanchored(c: Clock, now: int, mono: int, elapsed: int): Clock {
    c.(wall := Some(now + elapsed), mono := mono + elapsed, uncertain := false, attest := false)
  }

  // ---------------------------------------------------------------- runs of checks

  datatype Probe = Probe(now: int, mono: int)

  function CheckAll(c: Clock, probes: seq<Probe>): Clock {
    if probes == [] then c
    else
      var last := probes[|probes| - 1];
      CheckTime(CheckAll(c, probes[..|probes| - 1]), last.now, last.mono).clock
  }

  function Accepted(c: Clock, probes: seq<Probe>): nat {
    if probes == [] then 0
    else
      var before, last := CheckAll(c, probes[..|probes| - 1]), probes[|probes| - 1];
      Accepted(c, probes[..|probes| - 1]) + if CheckTime(before, last.now, last.mono).sane then 1 else 0
  }

  /** A rejected check never moves the anchor, and leaves the clock uncertain unless it has no anchor to judge by. */
  lemma RejectionKeepsTheAnchor(c: Clock, now: int, mono: int)
    requires !CheckTime(c, now, mono).sane
    ensures
      var c' := CheckTime(c, now, mono).clock;
      c'.wall == c.wall && c'.mono == c.mono && c'.uncertain && c'.attest == c.attest
  {
  }

  /** However many checks pass, each can shift wall time against the monotonic clock by at most 300 s. */
  lemma {:induction false} DriftIsBounded(c: Clock, probes: seq<Probe>)
    requires c.wall.Some?
    ensures
      var c' := CheckAll(c, probes);
      && c'.wall.Some? && c'.mono >= c.mono
      && Abs(c'.wall.value - (c.wall.value + (c'.mono - c.mono))) <= CLOCK_JUMP * Accepted(c, probes)
  {
    if probes != [] {
      DriftIsBounded(c, probes[..|probes| - 1]);
    }
  }

  /** Once attestation is required no run of checks, however plausible, is believed. */
  lemma {:induction false} ChecksNeverAttest(c: Clock, probes: seq<Probe>)
    requires c.attest
    ensures
      var c' := CheckAll(c, probes);
      && c'.attest && c'.wall == c.wall && c'.mono == c.mono && (c.uncertain ==> c'.uncertain)
      && Accepted(c, probes) == 0
  {
    if probes != [] {
      ChecksNeverAttest(c, probes[..|probes| - 1]);
    }
  }
}
