/** The event loop's side of the archive: numbering rows of the live deque and noticing the ones that fell out of it. */
module TraceCaptureSpec {
  import opened Options

  const DEQUE_LIMIT: nat := 1000

  /** A row object, named by how many were pushed before it. */
  datatype RowRef = RowRef(at: nat)
  datatype Copy = Copy(row: RowRef, sequence: nat)

  /**
   * The live deque, newest first, and what the observer remembers of it. The last three fields are history: every
   * number ever given, every number any capture was told is durable, and the pushes that the last capture saw.
   */
  datatype Observer = Observer(pushed: nat, deque: seq<RowRef>, observed: map<RowRef, nat>, sequence: nat,
                               anchor: Option<RowRef>, overflow: bool,
                               given: map<RowRef, nat>, durable: set<int>, captured: nat)

  const EMPTY: Observer := Observer(0, [], map[], 0, None, false, map[], {}, 0)

  function Push(o: Observer): Observer {
    var kept := if |o.deque| < DEQUE_LIMIT then o.deque else o.deque[..DEQUE_LIMIT - 1];
    o.(pushed := o.pushed + 1, deque := [RowRef(o.pushed)] + kept)
  }

  /** Some row seen before has left the deque without being confirmed. */
  predicate LostUncommitted(o: Observer, confirmed: set<int>) {
    exists row :: row in o.observed && row !in o.deque && o.observed[row] !in confirmed
  }

  predicate Overflows(o: Observer, confirmed: set<int>) {
    || LostUncommitted(o, confirmed)
    || (o.anchor.Some? && o.deque != [] && o.anchor.value !in o.deque)
    || (o.anchor.None? && |o.deque| == DEQUE_LIMIT)
  }

  datatype Numbering = Numbering(observed: map<RowRef, nat>, sequence: nat, copies: seq<Copy>)

  /** One more row numbered: a known one keeps its number, a new one gets the next, an unconfirmed one is copied. */
  function NumberRow(o: Observer, n: Numbering, row: RowRef, confirmed: set<int>): Numbering {
    var number := if row in o.observed then o.observed[row] else n.sequence + 1;
    Numbering(n.observed[row := number], if row in o.observed then n.sequence else number,
              if number in confirmed then n.copies else n.copies + [Copy(row, number)])
  }

  /** The k oldest rows of the deque numbered, oldest first. */
  function NumberTo(o: Observer, k: nat, confirmed: set<int>): Numbering
    requires k <= |o.deque|
  {
    if k == 0 then Numbering(map[], o.sequence, [])
    else NumberRow(o, NumberTo(o, k - 1, confirmed), o.deque[|o.deque| - k], confirmed)
  }

  /** An uncertain clock suspends the observer; the second result is the rows to persist. */
  function Capture(o: Observer, uncertain: bool, confirmed: set<int>): (Observer, seq<Copy>) {
    if uncertain then (o, [])
    else
      var overflow := o.overflow || Overflows(o, confirmed);
      var n := NumberTo(o, |o.deque|, confirmed);
      (o.(overflow := overflow, observed := n.observed, sequence := n.sequence,
          anchor := if o.deque == [] then o.anchor else Some(o.deque[0]),
          given := o.given + n.observed, durable := o.durable + confirmed, captured := o.pushed),
       n.copies)
  }

  datatype Op = PushOp | CaptureOp(uncertain: bool, confirmed: set<int>)

  function Apply(o: Observer, op: Op): Observer {
    match op
    case PushOp => Push(o)
    case CaptureOp(uncertain, confirmed) => Capture(o, uncertain, confirmed).0
  }

  function Run(ops: seq<Op>): Observer {
    if ops == [] then EMPTY else Apply(Run(ops[..|ops| - 1]), ops[|ops| - 1])
  }

  // ---------------------------------------------------------------- what holds throughout

  /** The rows in a deque after this many pushes. */
  predicate Recent(row: RowRef, pushed: nat) {
    row.at < pushed <= row.at + DEQUE_LIMIT
  }

  ghost predicate DequeIsRecent(o: Observer) {
    && |o.deque| == (if o.pushed < DEQUE_LIMIT then o.pushed else DEQUE_LIMIT)
    && forall i :: 0 <= i < |o.deque| ==> o.deque[i] == RowRef(o.pushed - 1 - i)
  }

  /** Numbers follow the order of pushes, from one up to the last given. */
  ghost predicate Numbered(given: map<RowRef, nat>, sequence: nat, captured: nat) {
    && (forall r :: r in given ==> 1 <= given[r] <= sequence && r.at < captured)
    && (forall r, q :: r in given && q in given && r.at < q.at ==> given[r] < given[q])
  }

  /** A row that the last capture saw is accounted for: still there, known to be durable, or covered by the gap. */
  ghost predicate AccountedFor(o: Observer, row: RowRef) {
    Recent(row, o.captured) || o.overflow || (row in o.given && o.given[row] in o.durable)
  }

  /** What the last capture observed: every row of its deque, under its number. */
  ghost predicate Observes(o: Observer) {
    && (forall r :: r in o.observed <==> Recent(r, o.captured))
    && (forall r :: r in o.observed ==> r in o.given && o.given[r] == o.observed[r])
  }

  ghost predicate AllAccountedFor(o: Observer) {
    forall row: RowRef :: row.at < o.captured ==> AccountedFor(o, row)
  }

  ghost predicate Anchored(o: Observer) {
    o.captured <= o.pushed && o.anchor == if o.captured == 0 then None else Some(RowRef(o.captured - 1))
  }

  ghost predicate Inv(o: Observer) {
    && DequeIsRecent(o) && Anchored(o) && Numbered(o.given, o.sequence, o.captured)
    && Observes(o) && AllAccountedFor(o)
  }

  lemma DequeHolds(o: Observer, row: RowRef)
    requires DequeIsRecent(o)
    ensures row in o.deque <==> Recent(row, o.pushed)
  {
    if Recent(row, o.pushed) {
      assert o.deque[o.pushed - 1 - row.at] == row;
    }
  }

  lemma PushKeepsInv(o: Observer)
    requires Inv(o)
    ensures Inv(Push(o))
  {
    var p := Push(o);
    assert forall i :: 0 < i < |p.deque| ==> p.deque[i] == o.deque[i - 1];
    forall row: RowRef | row.at < p.captured ensures AccountedFor(p, row) {
      assert AccountedFor(o, row);
    }
  }

  /** The numbering of the k oldest rows: exactly those rows, old numbers kept, new ones above all old ones. */
  ghost predicate Numbers(o: Observer, n: Numbering, k: nat) {
    && n.sequence >= o.sequence
    && (forall r :: r in n.observed <==> Recent(r, o.pushed) && r.at < o.pushed - |o.deque| + k)
    && (forall r :: r in n.observed && r in o.observed ==> n.observed[r] == o.observed[r])
    && (forall r :: r in n.observed && r !in o.observed ==> o.sequence < n.observed[r] <= n.sequence)
    && (forall r, q :: r in n.observed && q in n.observed && r.at < q.at ==> n.observed[r] < n.observed[q])
  }

  /** What numbering needs of the observer: a recent deque, and rows observed in order up to the last number. */
  ghost predicate Ready(o: Observer) {
    && DequeIsRecent(o) && o.captured <= o.pushed
    && (forall r :: r in o.observed ==> Recent(r, o.captured) && o.observed[r] <= o.sequence)
    && (forall r :: Recent(r, o.captured) ==> r in o.observed)
    && (forall r, q :: r in o.observed && q in o.observed && r.at < q.at ==> o.observed[r] < o.observed[q])
  }

  lemma InvIsReady(o: Observer)
    requires Inv(o)
    ensures Ready(o)
  {
  }

  lemma NextNumbers(o: Observer, n: Numbering, k: nat, row: RowRef, number: nat)
    requires Ready(o) && k < |o.deque| && Numbers(o, n, k) && row == RowRef(o.pushed - |o.deque| + k)
    requires number == if row in o.observed then o.observed[row] else n.sequence + 1
    ensures
      var last := if row in o.observed then n.sequence else number;
      Numbers(o, Numbering(n.observed[row := number], last, n.copies), k + 1)
  {
    forall r | r in n.observed ensures n.observed[r] < number {
      assert r.at < row.at;
      if row in o.observed {
        assert Recent(r, o.captured);
      }
    }
  }

  lemma NumbersIgnoresCopies(o: Observer, n: Numbering, m: Numbering, k: nat)
    requires Numbers(o, n, k) && m == n.(copies := m.copies)
    ensures Numbers(o, m, k)
  {
  }

  lemma NothingNumbered(o: Observer)
    requires DequeIsRecent(o)
    ensures Numbers(o, Numbering(map[], o.sequence, []), 0)
  {
  }

  lemma {:induction false} NumberingNumbers(o: Observer, k: nat, confirmed: set<int>)
    requires Ready(o) && k <= |o.deque|
    ensures Numbers(o, NumberTo(o, k, confirmed), k)
  {
    hide Numbers, Recent;
    if k == 0 {
      NothingNumbered(o);
    } else {
      NumberingNumbers(o, k - 1, confirmed);
      var n, m, row := NumberTo(o, k - 1, confirmed), NumberTo(o, k, confirmed), o.deque[|o.deque| - k];
      assert row == RowRef(o.pushed - |o.deque| + k - 1);
      NextNumbers(o, n, k - 1, row, m.observed[row]);
      NumbersIgnoresCopies(o, m.(copies := n.copies), m, k);
    }
  }

  lemma OldNumbersStay(o: Observer, n: Numbering, r: RowRef)
    requires Inv(o) && Numbers(o, n, |o.deque|) && r in o.given && r in n.observed
    ensures n.observed[r] == o.given[r]
  {
    hide AllAccountedFor;
    assert Recent(r, o.captured);
  }

  /** A row pushed before a numbered one was numbered with it or before it. */
  lemma OldRowsComeFirst(o: Observer, n: Numbering, r: RowRef, q: RowRef)
    requires Inv(o) && Numbers(o, n, |o.deque|) && r in n.observed && q in o.given && r.at < q.at
    ensures r in o.given
  {
    hide AllAccountedFor;
    assert Recent(r, o.captured);
  }

  lemma NumbersStayInOrder(o: Observer, n: Numbering, r: RowRef, q: RowRef)
    requires Inv(o) && Numbers(o, n, |o.deque|) && r.at < q.at
    requires (r in o.given || r in n.observed) && (q in o.given || q in n.observed)
    ensures (o.given + n.observed)[r] < (o.given + n.observed)[q]
  {
    hide AllAccountedFor;
    if r in o.given && r in n.observed {
      OldNumbersStay(o, n, r);
    }
    if q in o.given && q in n.observed {
      OldNumbersStay(o, n, q);
    }
    if r in n.observed && q in o.given {
      OldRowsComeFirst(o, n, r, q);
    }
  }

  lemma NumberIsInRange(o: Observer, n: Numbering, r: RowRef)
    requires Inv(o) && Numbers(o, n, |o.deque|) && (r in o.given || r in n.observed)
    ensures 1 <= (o.given + n.observed)[r] <= n.sequence && r.at < o.pushed
  {
    hide AllAccountedFor;
    if r in o.given && r in n.observed {
      OldNumbersStay(o, n, r);
    }
  }

  /** Later numbers extend earlier ones: no row is ever renumbered. */
  lemma NumberingExtends(o: Observer, n: Numbering)
    requires Inv(o) && Numbers(o, n, |o.deque|)
    ensures Numbered(o.given + n.observed, n.sequence, o.pushed)
    ensures forall r :: r in o.given ==> (o.given + n.observed)[r] == o.given[r]
  {
    hide AllAccountedFor, Observes, DequeIsRecent;
    var all := o.given + n.observed;
    forall r | r in o.given && r in n.observed ensures n.observed[r] == o.given[r] {
      OldNumbersStay(o, n, r);
    }
    forall r, q | r in all && q in all && r.at < q.at ensures all[r] < all[q] {
      NumbersStayInOrder(o, n, r, q);
    }
    forall r | r in all ensures 1 <= all[r] <= n.sequence && r.at < o.pushed {
      NumberIsInRange(o, n, r);
    }
  }

  /** A row that is in no deque any more is durable, or the capture sets the gap. */
  lemma CaptureAccounts(o: Observer, confirmed: set<int>, row: RowRef)
    requires Inv(o) && row.at < o.pushed
    ensures AccountedFor(Capture(o, false, confirmed).0, row)
  {
    var c := Capture(o, false, confirmed).0;
    InvIsReady(o);
    NumberingNumbers(o, |o.deque|, confirmed);
    var n := NumberTo(o, |o.deque|, confirmed);
    NumberingExtends(o, n);
    DequeHolds(o, row);
    assert o.deque != [];
    if o.captured > 0 {
      DequeHolds(o, o.anchor.value);
    }
    if row.at < o.captured {
      assert AccountedFor(o, row);
      if !Recent(row, o.pushed) && !c.overflow && Recent(row, o.captured) {
        assert row in o.observed && o.observed[row] in confirmed;
      }
    }
  }

  lemma CaptureObserves(o: Observer, n: Numbering, c: Observer)
    requires DequeIsRecent(o) && Numbers(o, n, |o.deque|)
    requires c.observed == n.observed && c.given == o.given + n.observed && c.captured == o.pushed
    ensures Observes(c)
  {
  }

  lemma CaptureAnchors(o: Observer, confirmed: set<int>)
    requires DequeIsRecent(o) && Anchored(o)
    ensures DequeIsRecent(Capture(o, false, confirmed).0) && Anchored(Capture(o, false, confirmed).0)
  {
    hide NumberTo, Overflows;
    if o.deque != [] {
      assert o.deque[0] == RowRef(o.pushed - 1);
    }
  }

  lemma CaptureKeepsInv(o: Observer, uncertain: bool, confirmed: set<int>)
    requires Inv(o)
    ensures Inv(Capture(o, uncertain, confirmed).0)
  {
    hide NumberTo, Overflows, Numbered, AccountedFor, Numbers, DequeIsRecent, Anchored, Observes, Ready;
    if !uncertain {
      var c := Capture(o, false, confirmed).0;
      InvIsReady(o);
      NumberingNumbers(o, |o.deque|, confirmed);
      NumberingExtends(o, NumberTo(o, |o.deque|, confirmed));
      CaptureObserves(o, NumberTo(o, |o.deque|, confirmed), c);
      CaptureAnchors(o, confirmed);
      forall row: RowRef | row.at < c.captured ensures AccountedFor(c, row) {
        CaptureAccounts(o, confirmed, row);
      }
    }
  }

  lemma {:induction false} RunKeepsInv(ops: seq<Op>)
    ensures Inv(Run(ops))
  {
    if ops != [] {
      RunKeepsInv(ops[..|ops| - 1]);
      var before := Run(ops[..|ops| - 1]);
      match ops[|ops| - 1] {
        case PushOp => PushKeepsInv(before);
        case CaptureOp(uncertain, confirmed) => CaptureKeepsInv(before, uncertain, confirmed);
      }
    }
  }

  // ---------------------------------------------------------------- main results

  /**
   * At every capture under a trusted clock, each row ever pushed is still in the deque, or is known to be durable, or
   * the overflow gap is set, and stays set.
   */
  lemma {:induction false} LossIsNoticed(ops: seq<Op>, confirmed: set<int>, row: RowRef)
    requires row.at < Run(ops).pushed
    ensures
      var o := Run(ops + [CaptureOp(false, confirmed)]);
      && (row in o.deque || o.overflow || (row in o.given && o.given[row] in o.durable))
      && (Run(ops).overflow ==> o.overflow)
  {
    assert (ops + [CaptureOp(false, confirmed)])[..|ops|] == ops;
    RunKeepsInv(ops);
    var o := Run(ops);
    CaptureAccounts(o, confirmed, row);
    DequeHolds(o, row);
  }

  /** Over a whole run each row has one number for good, and numbers follow the order of pushes. */
  lemma {:induction false} NumbersAreStable(ops: seq<Op>, op: Op)
    ensures
      var before, after := Run(ops), Run(ops + [op]);
      && (forall r :: r in before.given ==> r in after.given && after.given[r] == before.given[r])
      && (forall r, q :: r in after.given && q in after.given && r.at < q.at ==>
            after.given[r] < after.given[q])
  {
    assert (ops + [op])[..|ops|] == ops;
    RunKeepsInv(ops);
    RunKeepsInv(ops + [op]);
    var o := Run(ops);
    if op.CaptureOp? && !op.uncertain {
      var overflow := o.overflow || Overflows(o, op.confirmed);
      InvIsReady(o);
      NumberingNumbers(o, |o.deque|, op.confirmed);
      NumberingExtends(o, NumberTo(o, |o.deque|, op.confirmed));
    }
  }

  lemma NumberSteps(o: Observer, k: nat, confirmed: set<int>)
    requires k < |o.deque|
    ensures
      NumberTo(o, k + 1, confirmed) ==
      NumberRow(o, NumberTo(o, k, confirmed), o.deque[|o.deque| - 1 - k], confirmed)
  {
  }

  lemma RowIgnoresOverflow(o: Observer, p: Observer, n: Numbering, row: RowRef, confirmed: set<int>)
    requires p == o.(overflow := p.overflow)
    ensures NumberRow(p, n, row, confirmed) == NumberRow(o, n, row, confirmed)
  {
  }

  lemma {:induction false} NumberingIgnoresOverflow(o: Observer, p: Observer, k: nat, confirmed: set<int>)
    requires k <= |o.deque| && p == o.(overflow := p.overflow)
    ensures NumberTo(p, k, confirmed) == NumberTo(o, k, confirmed)
  {
    hide NumberRow;
    if k != 0 {
      NumberingIgnoresOverflow(o, p, k - 1, confirmed);
      RowIgnoresOverflow(o, p, NumberTo(o, k - 1, confirmed), o.deque[|o.deque| - k], confirmed);
    }
  }

  lemma NothingNumberedYet(o: Observer, confirmed: set<int>)
    ensures NumberTo(o, 0, confirmed) == Numbering(map[], o.sequence, [])
  {
  }

  ghost predicate CopiesAre(n: Numbering, confirmed: set<int>) {
    && (forall c :: c in n.copies <==>
          c.row in n.observed && c.sequence == n.observed[c.row] && c.sequence !in confirmed)
    && (forall i, j :: 0 <= i < j < |n.copies| ==> n.copies[i].sequence < n.copies[j].sequence)
  }

  lemma ReadyIsRecent(o: Observer)
    requires Ready(o)
    ensures DequeIsRecent(o)
  {
  }

  lemma NothingCopied(sequence: nat, confirmed: set<int>)
    ensures CopiesAre(Numbering(map[], sequence, []), confirmed)
  {
  }

  lemma NextCopies(o: Observer, n: Numbering, m: Numbering, k: nat, confirmed: set<int>)
    requires DequeIsRecent(o) && 0 < k <= |o.deque|
    requires Numbers(o, n, k - 1) && Numbers(o, m, k) && CopiesAre(n, confirmed)
    requires m == NumberRow(o, n, o.deque[|o.deque| - k], confirmed)
    ensures CopiesAre(m, confirmed)
  {
    var row := o.deque[|o.deque| - k];
    assert row == RowRef(o.pushed - |o.deque| + k - 1) && row !in n.observed;
    forall i | 0 <= i < |n.copies| ensures n.copies[i].sequence < m.observed[row] {
      assert n.copies[i] in n.copies;
      assert n.copies[i].row.at < row.at && n.copies[i].row in m.observed;
    }
    forall c ensures c in m.copies <==>
        c.row in m.observed && c.sequence == m.observed[c.row] && c.sequence !in confirmed {
      assert c in m.copies <==> c in n.copies || (m.observed[row] !in confirmed && c == Copy(row, m.observed[row]));
    }
  }

  lemma {:induction false} CopiesAreUnconfirmed(o: Observer, k: nat, confirmed: set<int>)
    requires Ready(o) && k <= |o.deque|
    ensures CopiesAre(NumberTo(o, k, confirmed), confirmed)
  {
    hide Numbers, CopiesAre, Ready, DequeIsRecent, NumberRow, NumberTo;
    if k == 0 {
      NothingCopied(o.sequence, confirmed);
      NothingNumberedYet(o, confirmed);
    } else {
      ReadyIsRecent(o);
      NumberSteps(o, k - 1, confirmed);
      CopiesAreUnconfirmed(o, k - 1, confirmed);
      NumberingNumbers(o, k - 1, confirmed);
      NumberingNumbers(o, k, confirmed);
      NextCopies(o, NumberTo(o, k - 1, confirmed), NumberTo(o, k, confirmed), k, confirmed);
    }
  }

  /** A capture hands over exactly the rows of the deque that are not yet durable, oldest first, each by its number. */
  lemma {:induction false} CaptureHandsOverTheRest(ops: seq<Op>, confirmed: set<int>)
    ensures
      var (o, copies) := Capture(Run(ops), false, confirmed);
      && (forall r :: r in Run(ops).deque <==> r in o.observed)
      && (forall c :: c in copies <==>
            c.row in o.observed && c.sequence == o.observed[c.row] && c.sequence !in confirmed)
      && (forall i, j :: 0 <= i < j < |copies| ==> copies[i].sequence < copies[j].sequence)
  {
    hide NumberTo, Overflows;
    RunKeepsInv(ops);
    var before := Run(ops);
    InvIsReady(before);
    NumberingNumbers(before, |before.deque|, confirmed);
    CopiesAreUnconfirmed(before, |before.deque|, confirmed);
    forall r ensures r in before.deque <==> Recent(r, before.pushed) {
      DequeHolds(before, r);
    }
  }
}

/** The observer itself, updated in place. */
module TraceCaptureObject {
  import opened Options
  import opened TraceCaptureSpec

  class TraceObserver {
    var pushed: nat
    var deque: seq<RowRef>
    var observed: map<RowRef, nat>
    var sequence: nat
    var anchor: Option<RowRef>
    var overflow: bool
    ghost var given: map<RowRef, nat>
    ghost var durable: set<int>
    ghost var captured: nat

    ghost function View(): Observer
      reads this
    {
      Observer(pushed, deque, observed, sequence, anchor, overflow, given, durable, captured)
    }

    constructor ()
      ensures View() == EMPTY
    {
      pushed, deque, observed, sequence, anchor, overflow := 0, [], map[], 0, None, false;
      given, durable, captured := map[], {}, 0;
    }

    method PushRow()
      modifies this`pushed, this`deque
      ensures View() == Push(old(View()))
    {
      var kept := if |deque| < DEQUE_LIMIT then deque else deque[..DEQUE_LIMIT - 1];
      deque := [RowRef(pushed)] + kept;
      pushed := pushed + 1;
    }

    /** Has a row seen before left the deque unconfirmed? */
    method FindLost(confirmed: set<int>) returns (lost: bool)
      ensures lost == LostUncommitted(View(), confirmed)
    {
      var rest := observed.Keys;
      lost := false;
      while rest != {}
        invariant rest <= observed.Keys
        invariant !lost
        invariant forall r :: r in observed && r !in rest ==> r in deque || observed[r] in confirmed
        decreases |rest|
      {
        var row :| row in rest;
        if row !in deque && observed[row] !in confirmed {
          return true;
        }
        rest := rest - {row};
      }
    }

    method NoteOverflow(confirmed: set<int>)
      modifies this`overflow
      ensures overflow == (old(overflow) || Overflows(old(View()), confirmed))
    {
      var lost := FindLost(confirmed);
      if lost {
        overflow := true;
      } else if anchor.Some? && deque != [] && anchor.value !in deque {
        overflow := true;
      } else if anchor.None? && |deque| == DEQUE_LIMIT {
        overflow := true;
      }
    }

    /** Numbers the snapshot oldest first and copies what is not yet durable. */
    method NumberRows(confirmed: set<int>) returns (numbered: map<RowRef, nat>, copies: seq<Copy>)
      modifies this`sequence
      ensures Numbering(numbered, sequence, copies) == NumberTo(old(View()), |deque|, confirmed)
    {
      hide NumberTo;
      ghost var o := View();
      numbered, copies := map[], [];
      NothingNumberedYet(o, confirmed);
      for k := 0 to |deque|
        invariant Numbering(numbered, sequence, copies) == NumberTo(o, k, confirmed)
      {
        NumberSteps(o, k, confirmed);
        var row := deque[|deque| - 1 - k];
        var number;
        if row in observed {
          number := observed[row];
        } else {
          sequence := sequence + 1;
          number := sequence;
        }
        numbered := numbered[row := number];
        if number !in confirmed {
          copies := copies + [Copy(row, number)];
        }
      }
    }

    method CaptureRows(uncertain: bool, confirmed: set<int>) returns (copies: seq<Copy>)
      modifies this
      ensures (View(), copies) == Capture(old(View()), uncertain, confirmed)
    {
      hide Overflows, NumberTo;
      if uncertain {
        return [];
      }
      ghost var o := View();
      NoteOverflow(confirmed);
      ghost var noted := View();
      var numbered;
      numbered, copies := NumberRows(confirmed);
      NumberingIgnoresOverflow(o, noted, |deque|, confirmed);
      observed := numbered;
      if deque != [] {
        anchor := Some(deque[0]);
      }
      given, durable, captured := given + numbered, durable + confirmed, pushed;
    }
  }
}
