/** What a whole run of guard calls must look like for an evaluation to allow reacquisition. */
module Qualification {
  import opened Options
  import opened SolarReentrySpec

  datatype Call =
    | Evaluation(tick: Tick)
    | Resetting(reason: Reason)
    | Arming(cause: Reason)
    | Committing(generation: nat)

  function Apply(g: Guard, call: Call): Guard {
    match call
    case Evaluation(t) => Evaluate(g, t).0
    case Resetting(reason) => Reset(g, reason)
    case Arming(cause) => Arm(g, cause)
    case Committing(generation) => Commit(g, generation).0
  }

  function Run(g: Guard, calls: seq<Call>): Guard {
    if calls == [] then g else Apply(Run(g, calls[..|calls| - 1]), calls[|calls| - 1])
  }

  // ---------------------------------------------------------------- an unbroken run, said of the calls alone

  predicate Usable(call: Call) {
    && call.Evaluation? && call.tick.candidate
    && call.tick.wall.Some? && call.tick.mono.Some? && call.tick.reports.Some?
    && FreshAt(call.tick.reports.value, call.tick.wall.value)
  }

  function Reports(calls: seq<Call>, k: int): Pair
    requires 0 <= k < |calls| && Usable(calls[k])
  {
    calls[k].tick.reports.value
  }

  function Mono(calls: seq<Call>, k: int): real
    requires 0 <= k < |calls| && Usable(calls[k])
  {
    calls[k].tick.mono.value
  }

  function Clock(calls: seq<Call>, k: int): Pair
    requires 0 <= k < |calls| && Usable(calls[k])
  {
    Pair(calls[k].tick.wall.value, calls[k].tick.mono.value)
  }

  predicate AllUsable(calls: seq<Call>, s: int, n: int) {
    0 <= s <= n < |calls| && forall k :: s <= k <= n ==> Usable(calls[k])
  }

  /** The monotonic times at which the two streams last advanced, counting the start as an advance. */
  function LastAdvances(calls: seq<Call>, s: int, n: int): Pair
    requires AllUsable(calls, s, n)
    decreases n - s
  {
    var now := Mono(calls, n);
    if n == s then Pair(now, now)
    else
      var earlier := LastAdvances(calls, s, n - 1);
      Pair(if Reports(calls, n).fst > Reports(calls, n - 1).fst then now else earlier.fst,
           if Reports(calls, n).snd > Reports(calls, n - 1).snd then now else earlier.snd)
  }

  /** Tick n continues the run that started at s: same context, no regression, no stream idle or jumping too long. */
  predicate Continues(calls: seq<Call>, s: int, n: int)
    requires AllUsable(calls, s, n) && s < n
  {
    && calls[n].tick.context == calls[s].tick.context
    && !Below(Clock(calls, n), Clock(calls, n - 1))
    && !Below(Reports(calls, n), Reports(calls, n - 1))
    && Reports(calls, n).fst - Reports(calls, n - 1).fst <= MAX_REPORT_GAP_SECONDS
    && Reports(calls, n).snd - Reports(calls, n - 1).snd <= MAX_REPORT_GAP_SECONDS
    && Mono(calls, n) - LastAdvances(calls, s, n - 1).fst <= MAX_REPORT_GAP_SECONDS
    && Mono(calls, n) - LastAdvances(calls, s, n - 1).snd <= MAX_REPORT_GAP_SECONDS
  }

  predicate Unbroken(calls: seq<Call>, s: int, n: int) {
    AllUsable(calls, s, n) && forall k :: s < k <= n ==> Continues(calls, s, k)
  }

  /** Some stream advances at tick k, and all three spans since the start reach 30 s. */
  predicate Ripe(calls: seq<Call>, s: int, k: int)
    requires AllUsable(calls, s, k) && s < k
  {
    && Advances(Reports(calls, k), Reports(calls, k - 1))
    && Spans(Reports(calls, s), Mono(calls, s), Reports(calls, k), Mono(calls, k))
  }

  predicate Ripened(calls: seq<Call>, s: int, n: int)
    requires AllUsable(calls, s, n)
  {
    exists k :: s < k <= n && Ripe(calls, s, k)
  }

  /** The guard that meets call s opens a new qualification interval there. */
  predicate StartsAt(g: Guard, calls: seq<Call>, s: int) {
    && 0 <= s < |calls| && calls[s].Evaluation?
    && var before := Run(g, calls[..s]);
       before.required && Admit(before, calls[s].tick).Restarted?
  }

  // ---------------------------------------------------------------- the guard mirrors the run

  /** The guard carries exactly the facts of the unbroken run that started at s and reached the last call. */
  ghost predicate Mirrors(g: Guard, calls: seq<Call>, s: int) {
    var n := |calls| - 1;
    && Unbroken(calls, s, n)
    && g.required
    && g.reports == Some(Reports(calls, n)) == g.highWater
    && g.firstReports == Some(Reports(calls, s))
    && g.started == Some(Mono(calls, s))
    && g.context == Some(calls[s].tick.context) == g.identity
    && g.lastClock == Some(Clock(calls, n))
    && g.lastAdvance == Some(LastAdvances(calls, s, n))
    && g.phase in {Qualifying, Qualified}
    && (g.phase == Qualified <==> Ripened(calls, s, n))
  }

  lemma {:induction false} LastAdvancesOfPrefix(calls: seq<Call>, call: Call, s: int, n: int)
    requires AllUsable(calls, s, n)
    ensures AllUsable(calls + [call], s, n)
    ensures LastAdvances(calls + [call], s, n) == LastAdvances(calls, s, n)
    decreases n - s
  {
    if s < n {
      LastAdvancesOfPrefix(calls, call, s, n - 1);
    }
  }

  lemma ContinuesInPrefix(calls: seq<Call>, call: Call, s: int, n: int)
    requires AllUsable(calls, s, n) && s < n
    ensures AllUsable(calls + [call], s, n)
    ensures Continues(calls + [call], s, n) <==> Continues(calls, s, n)
    ensures Ripe(calls + [call], s, n) <==> Ripe(calls, s, n)
  {
    LastAdvancesOfPrefix(calls, call, s, n - 1);
  }

  lemma AllUsableInPrefix(calls: seq<Call>, call: Call, s: int, n: int)
    requires 0 <= s <= n < |calls|
    ensures AllUsable(calls + [call], s, n) <==> AllUsable(calls, s, n)
  {
    assert forall k :: 0 <= k < |calls| ==> (calls + [call])[k] == calls[k];
  }

  lemma UnbrokenInPrefix(calls: seq<Call>, call: Call, s: int, n: int)
    requires 0 <= s <= n < |calls|
    ensures Unbroken(calls + [call], s, n) <==> Unbroken(calls, s, n)
    ensures Unbroken(calls, s, n) ==> (Ripened(calls + [call], s, n) <==> Ripened(calls, s, n))
  {
    AllUsableInPrefix(calls, call, s, n);
    if AllUsable(calls, s, n) {
      forall k | s < k <= n
        ensures AllUsable(calls + [call], s, k) && AllUsable(calls, s, k)
        ensures Continues(calls + [call], s, k) <==> Continues(calls, s, k)
        ensures Ripe(calls + [call], s, k) <==> Ripe(calls, s, k)
      {
        ContinuesInPrefix(calls, call, s, k);
      }
    }
  }

  lemma AdmitsContinuation(g: Guard, calls: seq<Call>, s: int, t: Tick)
    requires calls != [] && Mirrors(g, calls, s) && AllUsable(calls + [Evaluation(t)], s, |calls|)
    ensures Admit(g, t).Continued? <==> Continues(calls + [Evaluation(t)], s, |calls|)
  {
    LastAdvancesOfPrefix(calls, Evaluation(t), s, |calls| - 1);
    var calls' := calls + [Evaluation(t)];
    assert calls'[|calls|] == Evaluation(t) && calls'[|calls| - 1] == calls[|calls| - 1] && calls'[s] == calls[s];
  }

  /** The guard accepts a tick as a continuation exactly when the calls say the run is unbroken. */
  lemma ContinuationIsUnbroken(g: Guard, calls: seq<Call>, s: int, t: Tick)
    requires calls != [] && Mirrors(g, calls, s)
    ensures
      var calls' := calls + [Evaluation(t)];
      Admit(g, t).Continued? <==> Unbroken(calls', s, |calls|)
  {
    var n := |calls|;
    var call := Evaluation(t);
    var calls' := calls + [call];
    UnbrokenInPrefix(calls, call, s, n - 1);
    LastAdvancesOfPrefix(calls, call, s, n - 1);
    assert calls'[n] == call && calls'[n - 1] == calls[n - 1] && calls'[s] == calls[s];
    if Usable(call) {
      assert AllUsable(calls', s, n);
      AdmitsContinuation(g, calls, s, t);
      assert Unbroken(calls', s, n) <==> Continues(calls', s, n);
    }
  }

  lemma RipenedOneMore(calls: seq<Call>, s: int, n: int)
    requires AllUsable(calls, s, n) && s < n
    ensures Ripened(calls, s, n) <==> Ripened(calls, s, n - 1) || Ripe(calls, s, n)
  {
  }

  /** Evaluating a continuation keeps the mirror, and allows reacquisition exactly when the run has ripened. */
  lemma ContinuationMirrors(g: Guard, calls: seq<Call>, s: int, t: Tick)
    requires calls != [] && Mirrors(g, calls, s) && Admit(g, t).Continued?
    ensures
      var calls' := calls + [Evaluation(t)];
      && Mirrors(Evaluate(g, t).0, calls', s)
      && (Evaluate(g, t).1 <==> Ripened(calls', s, |calls|))
  {
    var n := |calls|;
    var call := Evaluation(t);
    var calls' := calls + [call];
    ContinuationIsUnbroken(g, calls, s, t);
    UnbrokenInPrefix(calls, call, s, n - 1);
    LastAdvancesOfPrefix(calls, call, s, n - 1);
    assert calls'[n] == call && calls'[n - 1] == calls[n - 1] && calls'[s] == calls[s];
    RipenedOneMore(calls', s, n);
    assert LastAdvances(calls', s, n) == Evaluate(g, t).0.lastAdvance.value;
  }

  lemma RestartMirrors(g: Guard, calls: seq<Call>, t: Tick)
    requires g.required && Admit(g, t).Restarted?
    ensures
      var calls' := calls + [Evaluation(t)];
      Mirrors(Evaluate(g, t).0, calls', |calls|) && !Ripened(calls', |calls|, |calls|)
  {
    assert (calls + [Evaluation(t)])[|calls|] == Evaluation(t);
  }

  lemma RejectionClears(g: Guard, t: Tick)
    requires g.required && Admit(g, t).Rejected?
    ensures Evaluate(g, t).0.reports.None? && Evaluate(g, t).0.required
  {
  }

  // ---------------------------------------------------------------- whole runs

  ghost predicate Follows(g: Guard, start: Guard, calls: seq<Call>) {
    && (!g.required ==> g.reports.None?)
    && (g.reports.Some? ==> calls != [] && exists s :: StartsAt(start, calls, s) && Mirrors(g, calls, s))
    && (g.reports.None? ==> g.lastAdvance.None? && g.phase != Qualified)
  }

  lemma StartsInPrefix(start: Guard, calls: seq<Call>, call: Call, s: int)
    requires 0 <= s < |calls|
    ensures StartsAt(start, calls + [call], s) <==> StartsAt(start, calls, s)
  {
    assert (calls + [call])[..s] == calls[..s];
  }

  lemma ContinuedHasReports(g: Guard, t: Tick)
    requires Admit(g, t).Continued?
    ensures g.reports.Some?
  {
  }

  lemma EvaluationFollows(g: Guard, start: Guard, calls: seq<Call>, t: Tick)
    requires g == Run(start, calls) && Follows(g, start, calls)
    ensures Follows(Evaluate(g, t).0, start, calls + [Evaluation(t)])
  {
    hide Mirrors, Run;
    if g.required {
      var calls' := calls + [Evaluation(t)];
      var g' := Evaluate(g, t).0;
      match Admit(g, t)
      case Rejected(_) => RejectionClears(g, t);
      case Restarted(_) =>
        RestartMirrors(g, calls, t);
        assert calls'[..|calls|] == calls;
        assert StartsAt(start, calls', |calls|) && Mirrors(g', calls', |calls|);
      case Continued(before, newest, mono) =>
        ContinuedHasReports(g, t);
        var s :| StartsAt(start, calls, s) && Mirrors(g, calls, s);
        ContinuationMirrors(g, calls, s, t);
        StartsInPrefix(start, calls, Evaluation(t), s);
        assert StartsAt(start, calls', s) && Mirrors(g', calls', s);
    }
  }

  /** The calls without the commits that were refused; those leave the guard as it was. */
  function Effective(start: Guard, calls: seq<Call>): seq<Call> {
    if calls == [] then []
    else
      var earlier, last := calls[..|calls| - 1], calls[|calls| - 1];
      if last.Committing? && !Commit(Run(start, earlier), last.generation).1 then Effective(start, earlier)
      else Effective(start, earlier) + [last]
  }

  lemma {:induction false} CallFollows(g: Guard, start: Guard, calls: seq<Call>, call: Call)
    requires g == Run(start, calls) && Follows(g, start, calls)
    requires call.Committing? ==> Commit(g, call.generation).1
    ensures Follows(Apply(g, call), start, calls + [call])
  {
    if call.Evaluation? {
      EvaluationFollows(g, start, calls, call.tick);
    }
  }

  lemma {:induction false} RunFollows(start: Guard, calls: seq<Call>)
    requires Follows(start, start, [])
    ensures Run(start, Effective(start, calls)) == Run(start, calls)
    ensures Follows(Run(start, calls), start, Effective(start, calls))
  {
    if calls != [] {
      var earlier, last := calls[..|calls| - 1], calls[|calls| - 1];
      RunFollows(start, earlier);
      var effective := Effective(start, earlier);
      if !last.Committing? || Commit(Run(start, earlier), last.generation).1 {
        CallFollows(Run(start, earlier), start, effective, last);
        assert (effective + [last])[..|effective|] == effective;
      }
    }
  }

  /** The last call ends an unbroken run that began a qualification at s and ripened since. */
  ghost predicate Qualifies(start: Guard, calls: seq<Call>, s: int) {
    StartsAt(start, calls, s) && Unbroken(calls, s, |calls| - 1) && Ripened(calls, s, |calls| - 1)
  }

  ghost predicate RunQualifies(start: Guard, calls: seq<Call>) {
    exists s :: Qualifies(start, calls, s)
  }

  /** A guard that nothing has been asked of: no proof is in progress. */
  predicate NoProof(g: Guard) {
    g.reports.None? && g.lastAdvance.None? && g.phase != Qualified
  }

  lemma AllowedIsQualified(g: Guard, start: Guard, calls: seq<Call>, t: Tick)
    requires g == Run(start, calls) && Follows(g, start, calls) && g.required && Evaluate(g, t).1
    ensures RunQualifies(start, calls + [Evaluation(t)])
  {
    assert Admit(g, t).Continued?;
    ContinuedHasReports(g, t);
    var s :| StartsAt(start, calls, s) && Mirrors(g, calls, s);
    ContinuationMirrors(g, calls, s, t);
    StartsInPrefix(start, calls, Evaluation(t), s);
    assert Qualifies(start, calls + [Evaluation(t)], s);
  }

  lemma {:induction false} UnbrokenUpTo(calls: seq<Call>, s: int, n: int)
    requires 0 <= s <= n < |calls|
    ensures Unbroken(calls[..n + 1], s, n) <==> Unbroken(calls, s, n)
    ensures Unbroken(calls, s, n) ==> (Ripened(calls[..n + 1], s, n) <==> Ripened(calls, s, n))
    decreases |calls|
  {
    if n + 1 == |calls| {
      assert calls[..n + 1] == calls;
    } else {
      var shorter := calls[..|calls| - 1];
      assert calls == shorter + [calls[|calls| - 1]];
      assert shorter[..n + 1] == calls[..n + 1];
      UnbrokenUpTo(shorter, s, n);
      UnbrokenInPrefix(shorter, calls[|calls| - 1], s, n);
    }
  }

  /** From a start on, every prefix of an unbroken run is mirrored. */
  lemma {:induction false} UnbrokenIsMirrored(start: Guard, calls: seq<Call>, s: int, n: int)
    requires StartsAt(start, calls, s) && s <= n && Unbroken(calls, s, n)
    ensures Mirrors(Run(start, calls[..n + 1]), calls[..n + 1], s)
    decreases n - s
  {
    assert calls[..n + 1][..n] == calls[..n];
    assert calls[..n + 1] == calls[..n] + [calls[n]];
    var before := Run(start, calls[..n]);
    if n == s {
      RestartMirrors(before, calls[..n], calls[n].tick);
    } else {
      UnbrokenIsMirrored(start, calls, s, n - 1);
      UnbrokenUpTo(calls, s, n);
      ContinuationIsUnbroken(before, calls[..n], s, calls[n].tick);
      ContinuationMirrors(before, calls[..n], s, calls[n].tick);
    }
  }

  lemma QualifiedIsAllowed(start: Guard, calls: seq<Call>, t: Tick, s: int)
    requires Qualifies(start, calls + [Evaluation(t)], s)
    ensures Evaluate(Run(start, calls), t).1
  {
    var trace := calls + [Evaluation(t)];
    assert trace[..|calls|] == calls && trace[..|calls| + 1] == trace;
    assert s < |calls|;
    UnbrokenUpTo(trace, s, |calls| - 1);
    StartsInPrefix(start, calls, Evaluation(t), s);
    assert Unbroken(trace, s, |calls| - 1);
    UnbrokenIsMirrored(start, trace, s, |calls| - 1);
    ContinuationIsUnbroken(Run(start, calls), calls, s, t);
    ContinuationMirrors(Run(start, calls), calls, s, t);
  }

  /**
   * Soundness and liveness at once. After any calls, an evaluation while reacquisition is required is allowed if
   * and only if some earlier tick opened a qualification from which every call since is a usable evaluation in
   * the same context, with no clock or report regression, no stream idle or jumping for more than 60 s, and at
   * one of which a stream advanced with at least 30 s of monotonic time and of advance in both streams behind it.
   */
  lemma AllowedIffQualified(start: Guard, calls: seq<Call>, t: Tick)
    requires NoProof(start) && Run(start, calls).required
    ensures
      var trace := Effective(start, calls) + [Evaluation(t)];
      Evaluate(Run(start, calls), t).1 <==> RunQualifies(start, trace)
  {
    RunFollows(start, calls);
    var effective := Effective(start, calls);
    if Evaluate(Run(start, calls), t).1 {
      AllowedIsQualified(Run(start, calls), start, effective, t);
    }
    forall s | Qualifies(start, effective + [Evaluation(t)], s)
      ensures Evaluate(Run(start, calls), t).1
    {
      QualifiedIsAllowed(start, effective, t, s);
    }
  }

  // ---------------------------------------------------------------- dispatch, commit and epochs

  lemma {:induction false} AdvancesInOrder(calls: seq<Call>, s: int, n: int)
    requires Unbroken(calls, s, n)
    ensures LastAdvances(calls, s, n).fst <= Mono(calls, n) && LastAdvances(calls, s, n).snd <= Mono(calls, n)
    decreases n - s
  {
    if s < n {
      AdvancesInOrder(calls, s, n - 1);
      assert Continues(calls, s, n);
    }
  }

  lemma CurrentFromMirror(g: Guard, calls: seq<Call>, s: int, t: Tick)
    requires 0 <= s < |calls|
    requires Mirrors(g, calls + [Evaluation(t)], s) && g.phase == Qualified
    requires LastAdvances(calls + [Evaluation(t)], s, |calls|).fst <= Mono(calls + [Evaluation(t)], |calls|)
    requires LastAdvances(calls + [Evaluation(t)], s, |calls|).snd <= Mono(calls + [Evaluation(t)], |calls|)
    ensures IsCurrent(g, g.generation, t)
  {
    var trace := calls + [Evaluation(t)];
    assert trace[|calls|] == Evaluation(t);
    assert Continues(trace, s, |calls|);
  }

  /** An allowed evaluation is current for the same arguments until something changes. */
  lemma {:induction false} AllowedIsCurrent(start: Guard, calls: seq<Call>, t: Tick)
    requires NoProof(start) && Run(start, calls).required && Evaluate(Run(start, calls), t).1
    ensures
      var g := Evaluate(Run(start, calls), t).0;
      IsCurrent(g, g.generation, t)
  {
    RunFollows(start, calls);
    var effective, before := Effective(start, calls), Run(start, calls);
    ContinuedHasReports(before, t);
    var s :| StartsAt(start, effective, s) && Mirrors(before, effective, s);
    ContinuationMirrors(before, effective, s, t);
    AdvancesInOrder(effective + [Evaluation(t)], s, |effective|);
    CurrentFromMirror(Evaluate(before, t).0, effective, s, t);
  }

  lemma EvaluationKeepsGeneration(g: Guard, t: Tick)
    ensures Evaluate(g, t).0.generation >= g.generation
  {
  }

  lemma {:induction false} GenerationNeverFalls(g: Guard, calls: seq<Call>)
    ensures Run(g, calls).generation >= g.generation
  {
    if calls != [] {
      var before := Run(g, calls[..|calls| - 1]);
      GenerationNeverFalls(g, calls[..|calls| - 1]);
      if calls[|calls| - 1].Evaluation? {
        EvaluationKeepsGeneration(before, calls[|calls| - 1].tick);
      }
    }
  }

  /** A generation obtained before a reset can never be committed afterwards. */
  lemma StaleGenerationNeverCommits(g: Guard, earlier: nat, call: Call, calls: seq<Call>)
    requires call.Resetting? || call.Arming?
    requires earlier <= g.generation
    ensures
      var later := Run(Apply(g, call), calls);
      Commit(later, earlier) == (later, false)
  {
    GenerationNeverFalls(Apply(g, call), calls);
  }

  /** The call neither changes the context nor corrects the clock, so it stays in the report epoch. */
  predicate SameEpoch(g: Guard, call: Call) {
    call.Evaluation? ==>
      && g.identity == Some(call.tick.context)
      && (g.lastClock.Some? && call.tick.wall.Some? && call.tick.mono.Some? ==>
            !Below(Pair(call.tick.wall.value, call.tick.mono.value), g.lastClock.value))
  }

  /** Within one clock and context epoch accepted reports never regress in either stream. */
  lemma ReportsNeverRegress(g: Guard, call: Call)
    requires SameEpoch(g, call) && g.highWater.Some?
    ensures
      var g' := Apply(g, call);
      g'.highWater.Some? && !Below(g'.highWater.value, g.highWater.value)
  {
  }

  ghost predicate OneEpoch(g: Guard, calls: seq<Call>) {
    forall i :: 0 <= i < |calls| ==> SameEpoch(Run(g, calls[..i]), calls[i])
  }

  lemma {:induction false} EpochNeverRegresses(g: Guard, calls: seq<Call>)
    requires OneEpoch(g, calls) && g.highWater.Some?
    ensures
      var g' := Run(g, calls);
      g'.highWater.Some? && !Below(g'.highWater.value, g.highWater.value)
  {
    if calls != [] {
      var earlier := calls[..|calls| - 1];
      forall i | 0 <= i < |earlier|
        ensures SameEpoch(Run(g, earlier[..i]), earlier[i])
      {
        assert earlier[..i] == calls[..i];
        assert SameEpoch(Run(g, calls[..i]), calls[i]);
      }
      EpochNeverRegresses(g, earlier);
      ReportsNeverRegress(Run(g, earlier), calls[|calls| - 1]);
    }
  }
}
