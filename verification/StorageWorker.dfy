/** The database thread's admission, hand-over and shutdown, one step per critical section. */
module StorageWorkerSpec {

  /** A job, named by its order of admission. */
  datatype Job = Job(id: nat, accounting: bool)

  datatype Fate = Waiting | Running | Cancelled | Finished

  datatype Stage =
    | Opening
    | Serving
    | Holding(job: Job)
    | Executing(job: Job)
    | Releasing(job: Job)
    | Exited

  /** History, in order: a store operation, the single resolution of a future, the closing of the store. */
  datatype Event = Operated(id: nat) | Resolved(id: nat) | StoreClosed

  datatype Worker = Worker(
    capacity: nat, queue: seq<Job>, outstanding: int, ordinary: int, stopping: bool,
    stage: Stage, hasStore: bool, fates: map<nat, Fate>, history: seq<Event>)

  datatype Step =
    | Open(ok: bool)
    | Submit(accounting: bool)
    | CancelFuture(id: nat)
    | Take
    | Begin
    | Finish
    | Release
    | Close
    | Exit

  function Fresh(capacity: nat): Worker {
    Worker(capacity, [], 0, 0, false, Opening, false, map[], [])
  }

  function Weight(job: Job): int {
    if job.accounting then 0 else 1
  }

  predicate Refuses(w: Worker, accounting: bool) {
    w.stopping || w.outstanding >= w.capacity || (!accounting && w.ordinary >= w.capacity - 1)
  }

  /** Futures are numbered in order of admission. */
  function Admit(w: Worker, accounting: bool): Worker {
    if Refuses(w, accounting) then w
    else
      var job := Job(|w.fates|, accounting);
      w.(queue := w.queue + [job], outstanding := w.outstanding + 1, ordinary := w.ordinary + Weight(job),
         fates := w.fates[job.id := Waiting])
  }

  /** Cancelling affects only a future that still waits. */
  function Cancel(w: Worker, id: nat): Worker {
    if id in w.fates && w.fates[id] == Waiting
    then w.(fates := w.fates[id := Cancelled], history := w.history + [Resolved(id)])
    else w
  }

  function Uncount(w: Worker, job: Job): Worker {
    w.(outstanding := w.outstanding - 1, ordinary := w.ordinary - Weight(job))
  }

  function PopCancelled(w: Worker): Worker
    requires w.queue != []
  {
    Uncount(Cancel(w.(queue := w.queue[1..]), w.queue[0].id), w.queue[0])
  }

  function Drain(w: Worker): Worker
    decreases |w.queue|
  {
    if w.queue == [] then w else Drain(PopCancelled(w))
  }

  /** The thread opens its store, or ends without one. */
  function Opened(w: Worker, ok: bool): Worker {
    if w.stage != Opening then w
    else if ok then w.(stage := Serving, hasStore := true)
    else w.(stage := Exited)
  }

  function Taken(w: Worker): Worker {
    if w.stage != Serving || w.stopping || w.queue == [] then w
    else w.(stage := Holding(w.queue[0]), queue := w.queue[1..])
  }

  /** A future cancelled while it waited is passed over; any other starts running. */
  function Begun(w: Worker): Worker {
    if !w.stage.Holding? then w
    else
      var job := w.stage.job;
      if job.id in w.fates && w.fates[job.id] == Waiting
      then w.(stage := Executing(job), fates := w.fates[job.id := Running])
      else w.(stage := Releasing(job))
  }

  /** The operation returns or raises; either way it sets the future. */
  function Ran(w: Worker): Worker {
    if !w.stage.Executing? then w
    else
      var job := w.stage.job;
      w.(stage := Releasing(job), fates := w.fates[job.id := Finished],
         history := w.history + [Operated(job.id), Resolved(job.id)])
  }

  function Released(w: Worker): Worker {
    if !w.stage.Releasing? then w else Uncount(w.(stage := Serving), w.stage.job)
  }

  function Ended(w: Worker): Worker {
    if w.stage != Serving || !w.stopping then w
    else w.(stage := Exited, history := w.history + [StoreClosed])
  }

  function Apply(w: Worker, step: Step): Worker {
    match step
    case Open(ok) => Opened(w, ok)
    case Submit(accounting) => Admit(w, accounting)
    case CancelFuture(id) => Cancel(w, id)
    case Take => Taken(w)
    case Begin => Begun(w)
    case Finish => Ran(w)
    case Release => Released(w)
    case Close => Drain(w.(stopping := true))
    case Exit => Ended(w)
  }

  function Run(w: Worker, steps: seq<Step>): Worker {
    if steps == [] then w else Apply(Run(w, steps[..|steps| - 1]), steps[|steps| - 1])
  }

  // ---------------------------------------------------------------- the invariant

  predicate InHand(w: Worker) {
    w.stage.Holding? || w.stage.Executing? || w.stage.Releasing?
  }

  /** Every admitted job that is not done with: the one in hand and the queued ones. */
  function Live(w: Worker): seq<Job> {
    (if InHand(w) then [w.stage.job] else []) + w.queue
  }

  function Weights(jobs: seq<Job>): int {
    if jobs == [] then 0 else Weight(jobs[0]) + Weights(jobs[1..])
  }

  function Count(history: seq<Event>, e: Event): nat {
    if history == [] then 0
    else Count(history[..|history| - 1], e) + if history[|history| - 1] == e then 1 else 0
  }

  predicate IsSettled(fate: Fate) {
    fate == Cancelled || fate == Finished
  }

  ghost predicate Counted(w: Worker) {
    && w.outstanding == |Live(w)|
    && w.ordinary == Weights(Live(w))
    && w.ordinary <= w.capacity - 1
    && w.outstanding <= w.capacity
  }

  /** Futures are numbered without gaps, so the next number is always free. */
  ghost predicate Dense(fates: map<nat, Fate>) {
    forall id: nat :: id in fates <==> id < |fates|
  }

  ghost predicate QueueTracked(queue: seq<Job>, fates: map<nat, Fate>) {
    && (forall i :: 0 <= i < |queue| ==> queue[i].id in fates && fates[queue[i].id] in {Waiting, Cancelled})
    && (forall i, j :: 0 <= i < j < |queue| ==> queue[i].id != queue[j].id)
  }

  ghost predicate Queued(queue: seq<Job>, id: nat) {
    exists i :: 0 <= i < |queue| && queue[i].id == id
  }

  ghost predicate HandTracked(w: Worker) {
    InHand(w) ==>
      && w.stage.job.id in w.fates && !Queued(w.queue, w.stage.job.id)
      && match w.stage {
           case Holding(job) => w.fates[job.id] in {Waiting, Cancelled}
           case Executing(job) => w.fates[job.id] == Running
           case Releasing(job) => IsSettled(w.fates[job.id])
           case _ => true
         }
  }

  /** A future that is not settled belongs to a job still in hand or queued. */
  ghost predicate NoneLost(w: Worker) {
    forall id :: id in w.fates && !IsSettled(w.fates[id]) ==>
      (InHand(w) && w.stage.job.id == id) || Queued(w.queue, id)
  }

  ghost predicate Tracked(w: Worker) {
    Dense(w.fates) && QueueTracked(w.queue, w.fates) && HandTracked(w) && NoneLost(w)
  }

  /** The store closes at most once, when the thread leaves, and nothing operates on it afterwards. */
  ghost predicate Recorded(w: Worker) {
    && (forall id :: Count(w.history, Resolved(id)) ==
          if id in w.fates && IsSettled(w.fates[id]) then 1 else 0)
    && Count(w.history, StoreClosed) == (if w.stage == Exited && w.hasStore then 1 else 0)
    && (forall i, j :: 0 <= i < j < |w.history| && w.history[i] == StoreClosed ==> !w.history[j].Operated?)
  }

  ghost predicate Inv(w: Worker) {
    && w.capacity >= 2
    && Counted(w) && Tracked(w) && Recorded(w)
    && (w.stopping ==> w.queue == [])
    && (w.stage == Exited && w.hasStore ==> w.stopping)
    && (w.hasStore ==> w.stage != Opening)
    && (!w.hasStore ==> w.stage == Opening || w.stage == Exited)
  }

  // ---------------------------------------------------------------- facts about the counters

  lemma {:induction false} WeightsConcat(a: seq<Job>, b: seq<Job>)
    ensures Weights(a + b) == Weights(a) + Weights(b)
  {
    if a == [] {
      assert a + b == b;
    } else {
      assert (a + b)[1..] == a[1..] + b;
      WeightsConcat(a[1..], b);
    }
  }

  /** When only ordinary jobs are live, the ordinary counter counts them all. */
  lemma {:induction false} OrdinaryWeights(jobs: seq<Job>)
    requires forall i :: 0 <= i < |jobs| ==> !jobs[i].accounting
    ensures Weights(jobs) == |jobs|
  {
    if jobs != [] {
      assert forall i :: 0 <= i < |jobs| - 1 ==> jobs[1..][i] == jobs[i + 1];
      OrdinaryWeights(jobs[1..]);
    }
  }

  lemma {:induction false} WeightsBound(jobs: seq<Job>)
    ensures 0 <= Weights(jobs) <= |jobs|
  {
    if jobs != [] {
      WeightsBound(jobs[1..]);
    }
  }

  lemma CountOneMore(history: seq<Event>, last: Event, e: Event)
    ensures Count(history + [last], e) == Count(history, e) + if last == e then 1 else 0
  {
    assert (history + [last])[..|history|] == history;
  }

  lemma {:induction false} CountIsMembership(history: seq<Event>, e: Event)
    ensures Count(history, e) > 0 <==> e in history
  {
    if history != [] {
      CountIsMembership(history[..|history| - 1], e);
      assert history == history[..|history| - 1] + [history[|history| - 1]];
    }
  }

  // ---------------------------------------------------------------- steps

  lemma AdmitCounts(w: Worker, accounting: bool)
    requires Counted(w) && w.capacity >= 2
    ensures Counted(Admit(w, accounting))
  {
    if !Refuses(w, accounting) {
      var job := Job(|w.fates|, accounting);
      var w' := Admit(w, accounting);
      assert Live(w') == Live(w) + [job];
      WeightsConcat(Live(w), [job]);
      assert Weights([job]) == Weight(job);
    }
  }

  lemma AdmitRecords(w: Worker, accounting: bool)
    requires Tracked(w) && Recorded(w)
    ensures Recorded(Admit(w, accounting))
  {
    assert |w.fates| !in w.fates;
  }

  lemma QueuedExtends(queue: seq<Job>, job: Job, id: nat)
    ensures Queued(queue + [job], id) <==> Queued(queue, id) || id == job.id
  {
    if Queued(queue, id) {
      var i :| 0 <= i < |queue| && queue[i].id == id;
      assert (queue + [job])[i].id == id;
    }
    assert (queue + [job])[|queue|].id == job.id;
  }

  lemma AdmitTracks(w: Worker, accounting: bool)
    requires Tracked(w)
    ensures Tracked(Admit(w, accounting))
  {
    hide Queued;
    if !Refuses(w, accounting) {
      var w' := Admit(w, accounting);
      var job := Job(|w.fates|, accounting);
      assert w'.queue == w.queue + [job];
      assert w'.fates.Keys == w.fates.Keys + {job.id};
      assert |w'.fates| == |w.fates| + 1;
      forall id
        ensures Queued(w'.queue, id) <==> Queued(w.queue, id) || id == job.id
      {
        QueuedExtends(w.queue, job, id);
      }
      assert QueueTracked(w'.queue, w'.fates);
      assert HandTracked(w');
    }
  }

  /** Settling one unsettled future adds its one resolution to the history. */
  lemma ResolvingKeepsRecord(w: Worker, id: nat, w': Worker)
    requires Recorded(w) && id in w.fates && !IsSettled(w.fates[id])
    requires w'.history == w.history + [Resolved(id)] && w'.fates.Keys == w.fates.Keys
    requires IsSettled(w'.fates[id]) && forall k :: k in w.fates && k != id ==> w'.fates[k] == w.fates[k]
    requires (w'.stage == Exited) == (w.stage == Exited) && w'.hasStore == w.hasStore
    ensures Recorded(w')
  {
    forall e
      ensures Count(w'.history, e) == Count(w.history, e) + if Resolved(id) == e then 1 else 0
    {
      CountOneMore(w.history, Resolved(id), e);
    }
  }

  lemma CancelKeeps(w: Worker, id: nat)
    requires Tracked(w) && Recorded(w)
    ensures Tracked(Cancel(w, id)) && Recorded(Cancel(w, id))
  {
    if id in w.fates && w.fates[id] == Waiting {
      ResolvingKeepsRecord(w, id, Cancel(w, id));
      assert Cancel(w, id).fates.Keys == w.fates.Keys;
      assert |Cancel(w, id).fates| == |w.fates| by {
        assert |Cancel(w, id).fates.Keys| == |Cancel(w, id).fates|;
      }
    }
  }

  lemma RanKeeps(w: Worker)
    requires Tracked(w) && Recorded(w)
    ensures Tracked(Ran(w)) && Recorded(Ran(w))
  {
    if w.stage.Executing? {
      var id := w.stage.job.id;
      var operated := w.(history := w.history + [Operated(id)]);
      forall e
        ensures Count(operated.history, e) == Count(w.history, e) + if Operated(id) == e then 1 else 0
      {
        CountOneMore(w.history, Operated(id), e);
      }
      CountIsMembership(w.history, StoreClosed);
      assert Recorded(operated);
      assert Ran(w).history == operated.history + [Resolved(id)];
      ResolvingKeepsRecord(operated, id, Ran(w));
      assert Ran(w).fates.Keys == w.fates.Keys;
      assert |Ran(w).fates.Keys| == |Ran(w).fates|;
    }
  }

  lemma QueuedHead(queue: seq<Job>, id: nat)
    requires queue != []
    ensures Queued(queue, id) <==> queue[0].id == id || Queued(queue[1..], id)
  {
    if Queued(queue, id) && queue[0].id != id {
      var i :| 0 <= i < |queue| && queue[i].id == id;
      assert queue[1..][i - 1].id == id;
    }
    if Queued(queue[1..], id) {
      var i :| 0 <= i < |queue| - 1 && queue[1..][i].id == id;
      assert queue[i + 1].id == id;
    }
  }

  lemma PopTracked(w: Worker)
    requires w.queue != [] && Tracked(w) && w.fates[w.queue[0].id] == Cancelled
    ensures Tracked(w.(queue := w.queue[1..]))
  {
    forall id
      ensures Queued(w.queue, id) <==> w.queue[0].id == id || Queued(w.queue[1..], id)
    {
      QueuedHead(w.queue, id);
    }
  }

  lemma PopTracksAndRecords(w: Worker)
    requires w.queue != [] && Tracked(w) && Recorded(w)
    ensures Tracked(PopCancelled(w)) && Recorded(PopCancelled(w))
  {
    var cancelled := Cancel(w, w.queue[0].id);
    CancelKeeps(w, w.queue[0].id);
    PopTracked(cancelled);
    var w' := PopCancelled(w);
    assert w' == cancelled.(queue := cancelled.queue[1..], outstanding := w'.outstanding, ordinary := w'.ordinary);
  }

  lemma PopCounts(w: Worker)
    requires w.queue != [] && Counted(w)
    ensures Counted(PopCancelled(w))
  {
    var hand := if InHand(w) then [w.stage.job] else [];
    WeightsConcat(hand, w.queue);
    WeightsConcat(hand, w.queue[1..]);
  }

  lemma PopKeeps(w: Worker)
    requires w.queue != [] && Counted(w) && Tracked(w) && Recorded(w)
    ensures
      var w' := PopCancelled(w);
      Counted(w') && Tracked(w') && Recorded(w')
  {
    PopCounts(w);
    PopTracksAndRecords(w);
  }

  lemma {:induction false} DrainKeeps(w: Worker)
    requires Counted(w) && Tracked(w) && Recorded(w)
    ensures
      var w' := Drain(w);
      && Counted(w') && Tracked(w') && Recorded(w') && w'.queue == []
      && w'.stage == w.stage && w'.stopping == w.stopping && w'.hasStore == w.hasStore && w'.capacity == w.capacity
    decreases |w.queue|
  {
    if w.queue != [] {
      PopKeeps(w);
      DrainKeeps(PopCancelled(w));
    }
  }

  lemma TakenKeeps(w: Worker)
    requires Inv(w)
    ensures Inv(Taken(w))
  {
    if w.stage == Serving && !w.stopping && w.queue != [] {
      var w' := Taken(w);
      assert Live(w') == Live(w);
      forall id
        ensures Queued(w.queue, id) <==> w.queue[0].id == id || Queued(w'.queue, id)
      {
        QueuedHead(w.queue, id);
      }
    }
  }

  lemma BegunKeeps(w: Worker)
    requires Inv(w)
    ensures Inv(Begun(w))
  {
    if w.stage.Holding? {
      var w' := Begun(w);
      assert Live(w') == Live(w);
      assert w'.fates.Keys == w.fates.Keys;
      assert |w'.fates.Keys| == |w'.fates|;
    }
  }

  lemma RanCounts(w: Worker)
    requires Counted(w)
    ensures Counted(Ran(w))
  {
    assert Live(Ran(w)) == Live(w);
  }

  lemma ReleasedKeeps(w: Worker)
    requires Inv(w)
    ensures Inv(Released(w))
  {
    if w.stage.Releasing? {
      WeightsConcat([w.stage.job], w.queue);
      assert Live(Released(w)) == w.queue;
      assert Weights([w.stage.job]) == Weight(w.stage.job);
      assert NoneLost(Released(w));
    }
  }

  lemma EndedKeeps(w: Worker)
    requires Inv(w)
    ensures Inv(Ended(w))
  {
    if w.stage == Serving && w.stopping {
      forall e
        ensures Count(Ended(w).history, e) == Count(w.history, e) + if StoreClosed == e then 1 else 0
      {
        CountOneMore(w.history, StoreClosed, e);
      }
      CountIsMembership(w.history, StoreClosed);
      assert Live(Ended(w)) == Live(w);
    }
  }

  lemma OpenedKeeps(w: Worker, ok: bool)
    requires Inv(w)
    ensures Inv(Opened(w, ok))
  {
    assert Live(Opened(w, ok)) == Live(w);
  }

  lemma AdmitKeeps(w: Worker, accounting: bool)
    requires Inv(w)
    ensures Inv(Admit(w, accounting))
  {
    AdmitCounts(w, accounting);
    AdmitTracks(w, accounting);
    AdmitRecords(w, accounting);
  }

  lemma CancelKeepsInv(w: Worker, id: nat)
    requires Inv(w)
    ensures Inv(Cancel(w, id))
  {
    CancelKeeps(w, id);
    assert Live(Cancel(w, id)) == Live(w);
  }

  lemma FinishKeeps(w: Worker)
    requires Inv(w)
    ensures Inv(Ran(w))
  {
    RanKeeps(w);
    RanCounts(w);
  }

  lemma CloseKeeps(w: Worker)
    requires Inv(w)
    ensures Inv(Apply(w, Close))
  {
    var stopped := w.(stopping := true);
    assert Live(stopped) == Live(w);
    DrainKeeps(stopped);
  }

  lemma ApplyKeeps(w: Worker, step: Step)
    requires Inv(w)
    ensures Inv(Apply(w, step))
  {
    match step
    case Open(ok) => OpenedKeeps(w, ok);
    case Submit(accounting) => AdmitKeeps(w, accounting);
    case CancelFuture(id) => CancelKeepsInv(w, id);
    case Take => TakenKeeps(w);
    case Begin => BegunKeeps(w);
    case Finish => FinishKeeps(w);
    case Release => ReleasedKeeps(w);
    case Close => CloseKeeps(w);
    case Exit => EndedKeeps(w);
  }

  lemma {:induction false} RunKeeps(w: Worker, steps: seq<Step>)
    requires Inv(w)
    ensures Inv(Run(w, steps))
  {
    if steps != [] {
      RunKeeps(w, steps[..|steps| - 1]);
      ApplyKeeps(Run(w, steps[..|steps| - 1]), steps[|steps| - 1]);
    }
  }

  // ---------------------------------------------------------------- what every run guarantees

  /** The counters are bounded, count the live jobs, and always leave the reserved slot to accounting. */
  ghost predicate Bounded(w: Worker) {
    && 0 <= w.ordinary <= w.capacity - 1
    && w.ordinary <= w.outstanding == |Live(w)| <= w.capacity
    && (Refuses(w, true) && !w.stopping ==> exists i :: 0 <= i < |Live(w)| && Live(w)[i].accounting)
  }

  /** The thread has left and the worker was closed: every admitted future is settled, by exactly one resolution. */
  ghost predicate AllResolvedOnce(w: Worker) {
    forall id :: id in w.fates ==> IsSettled(w.fates[id]) && Count(w.history, Resolved(id)) == 1
  }

  /** The store was closed exactly once, after every operation that was ever run. */
  ghost predicate ClosedLast(w: Worker) {
    && Count(w.history, StoreClosed) == 1
    && (forall i, j ::
          (0 <= i < |w.history| && 0 <= j < |w.history|
           && w.history[i] == StoreClosed && w.history[j].Operated?) ==> j < i)
  }

  lemma InvIsBounded(w: Worker)
    requires Inv(w)
    ensures Bounded(w)
  {
    WeightsBound(Live(w));
    if Refuses(w, true) && !w.stopping && !(exists i :: 0 <= i < |Live(w)| && Live(w)[i].accounting) {
      OrdinaryWeights(Live(w));
    }
  }

  lemma ExitedIsResolved(w: Worker)
    requires Inv(w) && w.stage == Exited && w.stopping
    ensures AllResolvedOnce(w)
  {
  }

  /** Under every interleaving of callers and the thread, admission stays bounded and accounting keeps a slot. */
  lemma AdmissionIsBounded(capacity: nat, steps: seq<Step>)
    requires capacity >= 2
    ensures Bounded(Run(Fresh(capacity), steps))
  {
    RunKeeps(Fresh(capacity), steps);
    InvIsBounded(Run(Fresh(capacity), steps));
  }

  lemma CloseIsLast(w: Worker)
    requires Recorded(w) && w.stage == Exited && w.hasStore
    ensures ClosedLast(w)
  {
  }

  /**
   * Under every interleaving: no future is ever resolved twice; once the thread has left a closed worker every
   * admitted future is resolved exactly once; and a thread that opened its store leaves only when closed, and
   * closes the store once, after its last operation.
   */
  lemma ClosedWorkersResolveEverything(capacity: nat, steps: seq<Step>)
    requires capacity >= 2
    ensures
      var w := Run(Fresh(capacity), steps);
      && (forall id :: Count(w.history, Resolved(id)) <= 1)
      && (w.stage == Exited && (w.stopping || w.hasStore) ==> AllResolvedOnce(w))
      && (w.stage == Exited && w.hasStore ==> w.stopping && ClosedLast(w))
  {
    RunKeeps(Fresh(capacity), steps);
    var w := Run(Fresh(capacity), steps);
    if w.stage == Exited && (w.stopping || w.hasStore) {
      ExitedIsResolved(w);
    }
    if w.stage == Exited && w.hasStore {
      CloseIsLast(w);
    }
  }
}

/** The worker object; each method is one critical section, or one action of the thread outside the lock. */
module StorageWorkerObject {
  import opened StorageWorkerSpec

  class StorageWorker {
    const capacity: nat
    var queue: seq<Job>
    var outstanding: int
    var ordinary: int
    var stopping: bool
    var stage: Stage
    var hasStore: bool
    var fates: map<nat, Fate>
    ghost var history: seq<Event>

    ghost function View(): Worker
      reads this
    {
      Worker(capacity, queue, outstanding, ordinary, stopping, stage, hasStore, fates, history)
    }

    constructor (capacity: nat)
      requires capacity >= 2
      ensures View() == Fresh(capacity)
    {
      this.capacity := capacity;
      queue, outstanding, ordinary, stopping, stage, hasStore := [], 0, 0, false, Opening, false;
      fates, history := map[], [];
    }

    method OpenStore(ok: bool)
      modifies this
      ensures View() == Apply(old(View()), Open(ok))
    {
      if stage == Opening {
        if ok {
          stage, hasStore := Serving, true;
        } else {
          stage := Exited;
        }
      }
    }

    /** Admission never waits: the caller gets a future's number or a refusal. */
    method SubmitJob(accounting: bool) returns (admitted: bool, id: nat)
      modifies this
      ensures View() == Apply(old(View()), Submit(accounting))
      ensures admitted == !Refuses(old(View()), accounting)
      ensures id == |old(fates)|
    {
      id := |fates|;
      admitted := false;
      if stopping || outstanding >= capacity || (!accounting && ordinary >= capacity - 1) {
        return;
      }
      admitted := true;
      outstanding := outstanding + 1;
      ordinary := ordinary + if accounting then 0 else 1;
      queue := queue + [Job(id, accounting)];
      fates := fates[id := Waiting];
    }

    method CancelIfWaiting(id: nat)
      modifies this`fates, this`history
      ensures View() == Cancel(old(View()), id)
    {
      if id in fates && fates[id] == Waiting {
        fates := fates[id := Cancelled];
        history := history + [Resolved(id)];
      }
    }

    method CloseQueue()
      modifies this
      ensures View() == Apply(old(View()), Close)
    {
      stopping := true;
      ghost var stopped := View();
      assert stopped == old(View()).(stopping := true);
      while queue != []
        invariant Drain(View()) == Drain(stopped)
        decreases |queue|
      {
        ghost var before := View();
        var job := queue[0];
        queue := queue[1..];
        CancelIfWaiting(job.id);
        outstanding := outstanding - 1;
        ordinary := ordinary - if job.accounting then 0 else 1;
        assert View() == PopCancelled(before);
      }
    }

    method TakeJob()
      modifies this
      ensures View() == Apply(old(View()), Take)
    {
      if stage == Serving && !stopping && queue != [] {
        stage, queue := Holding(queue[0]), queue[1..];
      }
    }

    method BeginJob()
      modifies this
      ensures View() == Apply(old(View()), Begin)
    {
      if stage.Holding? {
        var job := stage.job;
        if job.id in fates && fates[job.id] == Waiting {
          fates := fates[job.id := Running];
          stage := Executing(job);
        } else {
          stage := Releasing(job);
        }
      }
    }

    method FinishJob()
      modifies this
      ensures View() == Apply(old(View()), Finish)
    {
      if stage.Executing? {
        var job := stage.job;
        fates := fates[job.id := Finished];
        history := history + [Operated(job.id), Resolved(job.id)];
        stage := Releasing(job);
      }
    }

    method ReleaseJob()
      modifies this
      ensures View() == Apply(old(View()), Release)
    {
      if stage.Releasing? {
        var job := stage.job;
        outstanding := outstanding - 1;
        ordinary := ordinary - if job.accounting then 0 else 1;
        stage := Serving;
      }
    }

    method ExitThread()
      modifies this
      ensures View() == Apply(old(View()), Exit)
    {
      if stage == Serving && stopping {
        stage := Exited;
        history := history + [StoreClosed];
      }
    }
  }
}
