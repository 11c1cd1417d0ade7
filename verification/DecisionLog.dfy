/** The decision log: a bounded queue, a batching flusher, and writes that may fail. */
module DecisionLog {
  import opened Options

  const QUEUE_MAX: nat := 10_000
  const BATCH_MAX: nat := 200
  const FLUSH_INTERVAL: nat := 2_000   // milliseconds, like the backoffs
  const BACKOFF_MIN: nat := 1_000
  const BACKOFF_MAX: nat := 30_000

  /** Where the flusher stands. */
  datatype Phase = Waiting | Collecting | Writing | Sleeping

  /** The log between two of its steps. `created` and `started` tell whether the queue and the
      flusher task exist yet. The last four fields are its history: every event submitted, those
      dropped, those in batches written successfully, and the decision rows in the database. */
  datatype LogState<E> = LogState(
    enabled: bool, created: bool, started: bool,
    queue: seq<E>, batch: seq<E>, phase: Phase, backoff: nat, dropped: nat,
    submitted: seq<E>, lost: seq<E>, written: seq<E>, rows: seq<E>)

  datatype LogStep<E> =
    | Emit(event: E, loopRunning: bool)   // a request logs an event
    | Take                                // the flusher's queue.get() returns
    | Close                               // the batch is full or its time is up
    | WriteOk
    | WriteFail(inserted: nat)            // the write raises after inserting some rows
    | Wake                                // the backoff sleep ends

  function Fresh<E>(enabled: bool): LogState<E> {
    LogState(enabled, false, false, [], [], Waiting, BACKOFF_MIN, 0, [], [], [], [])
  }

  /** How many of n events still fit. */
  function Room(queued: nat, n: nat): nat {
    Min(n, Max(0, QUEUE_MAX - queued))
  }

  /** The first emit creates the queue and then starts the flusher, which fails when no event loop
      is running; the queue exists from then on and no later emit tries again. */
  function EmitStep<E>(s: LogState<E>, ev: E, loopRunning: bool): LogState<E> {
    if !s.enabled then s
    else if !s.created && !loopRunning then
      s.(created := true, dropped := s.dropped + 1, submitted := s.submitted + [ev], lost := s.lost + [ev])
    else
      var s1 := s.(created := true, started := s.started || !s.created, submitted := s.submitted + [ev]);
      if |s.queue| < QUEUE_MAX then s1.(queue := s.queue + [ev])
      else s1.(dropped := s.dropped + 1, lost := s.lost + [ev])
  }

  /** After a failed write, the events that fit go to the back of the queue and the rest is dropped. */
  function RequeueStep<E>(s: LogState<E>, inserted: nat): LogState<E>
    requires inserted <= |s.batch|
  {
    var fit := Room(|s.queue|, |s.batch|);
    s.(queue := s.queue + s.batch[..fit], batch := [], phase := Sleeping,
       dropped := s.dropped + (|s.batch| - fit), lost := s.lost + s.batch[fit..],
       rows := s.rows + s.batch[..inserted], backoff := Min(2 * s.backoff, BACKOFF_MAX))
  }

  function LogNext<E>(s: LogState<E>, l: LogStep<E>): LogState<E> {
    match l
    case Emit(ev, loopRunning) => EmitStep(s, ev, loopRunning)
    case Take =>
      if s.started && s.queue != [] && (s.phase.Waiting? || (s.phase.Collecting? && |s.batch| < BATCH_MAX))
      then s.(queue := s.queue[1..], batch := s.batch + [s.queue[0]], phase := Collecting) else s
    case Close =>
      if s.phase.Collecting? then s.(phase := Writing) else s
    case WriteOk =>
      if s.phase.Writing?
      then s.(batch := [], phase := Waiting, backoff := BACKOFF_MIN,
              written := s.written + s.batch, rows := s.rows + s.batch)
      else s
    case WriteFail(inserted) =>
      if s.phase.Writing? && inserted <= |s.batch| then RequeueStep(s, inserted) else s
    case Wake =>
      if s.phase.Sleeping? then s.(phase := Waiting) else s
  }

  /** The state after a run from a fresh log. */
  function LogRun<E>(enabled: bool, steps: seq<LogStep<E>>): LogState<E> {
    if steps == [] then Fresh(enabled)
    else LogNext(LogRun(enabled, steps[..|steps| - 1]), steps[|steps| - 1])
  }

  // ---------------------------------------------------------------- conservation

  /** Every submitted event is in exactly one place, the counter counts the dropped ones, the
      bounds hold, and a written event has at least one row. */
  ghost predicate Conserved<E(!new)>(s: LogState<E>) {
    && multiset(s.submitted) == multiset(s.written) + multiset(s.queue) + multiset(s.batch) + multiset(s.lost)
    && s.dropped == |s.lost|
    && |s.queue| <= QUEUE_MAX
    && |s.batch| <= BATCH_MAX
    && (s.batch == [] <==> s.phase.Waiting? || s.phase.Sleeping?)
    && multiset(s.written) <= multiset(s.rows)
    && (forall ev :: ev in s.rows ==> ev in s.submitted)
    && BACKOFF_MIN <= s.backoff <= BACKOFF_MAX
    && (s.started || s.queue != [] || s.batch != [] ==> s.created && s.enabled)
  }

  lemma Split<E>(a: seq<E>, i: nat)
    requires i <= |a|
    ensures multiset(a) == multiset(a[..i]) + multiset(a[i..])
  {
    assert a == a[..i] + a[i..];
  }

  lemma FromPlaces<E(!new)>(s: LogState<E>, ev: E)
    requires Conserved(s) && (ev in s.batch || ev in s.queue)
    ensures ev in s.submitted
  {
    assert multiset(s.submitted)[ev] > 0;
  }

  lemma EmitConserves<E(!new)>(s: LogState<E>, ev: E, loopRunning: bool)
    requires Conserved(s)
    ensures Conserved(EmitStep(s, ev, loopRunning))
  {
  }

  lemma TakeConserves<E(!new)>(s: LogState<E>)
    requires Conserved(s)
    ensures Conserved(LogNext(s, Take))
  {
    if s.queue != [] {
      assert s.queue == [s.queue[0]] + s.queue[1..];
    }
  }

  lemma WriteOkConserves<E(!new)>(s: LogState<E>)
    requires Conserved(s) && s.phase.Writing?
    ensures Conserved(LogNext(s, WriteOk))
  {
    forall ev | ev in s.batch ensures ev in s.submitted { FromPlaces(s, ev); }
  }

  lemma WriteFailConserves<E(!new)>(s: LogState<E>, inserted: nat)
    requires Conserved(s) && s.phase.Writing? && inserted <= |s.batch|
    ensures Conserved(RequeueStep(s, inserted))
  {
    Split(s.batch, Room(|s.queue|, |s.batch|));
    forall ev | ev in s.batch[..inserted] ensures ev in s.submitted { FromPlaces(s, ev); }
  }

  lemma PhaseChangeConserves<E(!new)>(s: LogState<E>)
    requires Conserved(s)
    ensures Conserved(LogNext(s, Close)) && Conserved(LogNext(s, Wake))
  {
  }

  lemma StepConserves<E(!new)>(s: LogState<E>, l: LogStep<E>)
    requires Conserved(s)
    ensures Conserved(LogNext(s, l))
  {
    hide EmitStep, RequeueStep, Conserved;
    match l
    case Emit(ev, loopRunning) => EmitConserves(s, ev, loopRunning);
    case Take => TakeConserves(s);
    case Close => PhaseChangeConserves(s);
    case WriteOk => if s.phase.Writing? { WriteOkConserves(s); }
    case WriteFail(inserted) => if s.phase.Writing? && inserted <= |s.batch| { WriteFailConserves(s, inserted); }
    case Wake => PhaseChangeConserves(s);
  }

  /** Conservation over every interleaving of emits, batches, writes, failures and requeues. */
  lemma {:induction false} NothingIsLostUncounted<E(!new)>(enabled: bool, steps: seq<LogStep<E>>)
    ensures Conserved(LogRun(enabled, steps))
  {
    if steps != [] {
      NothingIsLostUncounted(enabled, steps[..|steps| - 1]);
      StepConserves(LogRun(enabled, steps[..|steps| - 1]), steps[|steps| - 1]);
    }
  }

  // ---------------------------------------------------------------- nothing is dropped that fits

  /** Over all runs and every next step: an event is dropped only if the queue is full afterwards, or
      it is the very first one and finds no event loop. */
  lemma DropsOnlyWhenFull<E(!new)>(enabled: bool, steps: seq<LogStep<E>>, l: LogStep<E>)
    ensures var s := LogRun(enabled, steps);
            var t := LogNext(s, l);
            && s.lost <= t.lost
            && (|t.lost| > |s.lost| ==>
                  |t.queue| == 10_000
                  || (l.Emit? && !l.loopRunning && FirstLoop(steps).None? && t.lost == s.lost + [l.event]))
  {
    hide LogRun;
    NothingIsLostUncounted(enabled, steps);
    FirstEmitDecides(enabled, steps);
  }

  /** The first `fit` events of the batch go to the back of the queue, and the others are dropped, only
      because it is full. */
  predicate Requeued<E(==)>(s: LogState<E>, t: LogState<E>, fit: nat) {
    && fit <= |s.batch|
    && t.queue == s.queue + s.batch[..fit] && t.lost == s.lost + s.batch[fit..] && t.batch == []
    && (fit < |s.batch| ==> |t.queue| == QUEUE_MAX)
  }

  /** After a failed write the queue is the old one followed by a prefix of the batch, which is all of
      it unless the queue is then full. */
  lemma FailedBatchIsKept<E(!new)>(enabled: bool, steps: seq<LogStep<E>>, inserted: nat)
    requires LogRun(enabled, steps).phase.Writing? && inserted <= |LogRun(enabled, steps).batch|
    ensures var s := LogRun(enabled, steps);
            exists fit: nat :: Requeued(s, LogNext(s, WriteFail(inserted)), fit)
  {
    hide LogRun;
    var s := LogRun(enabled, steps);
    NothingIsLostUncounted(enabled, steps);
    assert Requeued(s, LogNext(s, WriteFail(inserted)), Room(|s.queue|, |s.batch|));
  }

  /** The failed writes since the last successful one. */
  function FailuresInARow<E>(enabled: bool, steps: seq<LogStep<E>>): nat {
    if steps == [] then 0
    else
      var s, l := LogRun(enabled, steps[..|steps| - 1]), steps[|steps| - 1];
      if s.phase.Writing? && l.WriteOk? then 0
      else FailuresInARow(enabled, steps[..|steps| - 1])
           + if s.phase.Writing? && l.WriteFail? && l.inserted <= |s.batch| then 1 else 0
  }

  function Doubled(ms: nat, n: nat): nat {
    if n == 0 then ms else 2 * Doubled(ms, n - 1)
  }

  /** The backoff is one second doubled for every failed write in a row, up to 30 seconds. */
  lemma {:induction false} BackoffDoubles<E(!new)>(enabled: bool, steps: seq<LogStep<E>>)
    ensures LogRun(enabled, steps).backoff == Min(Doubled(1_000, FailuresInARow(enabled, steps)), 30_000)
  {
    hide LogNext;
    if steps != [] {
      var s, l := LogRun(enabled, steps[..|steps| - 1]), steps[|steps| - 1];
      BackoffDoubles(enabled, steps[..|steps| - 1]);
      BackoffStep(s, l);
    }
  }

  lemma BackoffStep<E>(s: LogState<E>, l: LogStep<E>)
    ensures LogNext(s, l).backoff
            == if s.phase.Writing? && l.WriteOk? then 1_000
               else if s.phase.Writing? && l.WriteFail? && l.inserted <= |s.batch| then Min(2 * s.backoff, 30_000)
               else s.backoff
  {
  }

  // ---------------------------------------------------------------- without failures

  predicate NoFailures<E(!new)>(steps: seq<LogStep<E>>) {
    forall i :: 0 <= i < |steps| ==> !steps[i].WriteFail?
  }

  /** Everything accepted so far, oldest first, as long as nothing is requeued. */
  function InOrder<E>(s: LogState<E>): seq<E> {
    s.written + s.batch + s.queue
  }

  /** The event a step puts into the queue. */
  function Accepted<E>(s: LogState<E>, l: LogStep<E>): seq<E> {
    if l.Emit? && s.enabled && (s.created || l.loopRunning) && |s.queue| < QUEUE_MAX then [l.event] else []
  }

  /** The events that entered the queue, in the order they were emitted. */
  function AcceptedIn<E>(enabled: bool, steps: seq<LogStep<E>>): seq<E> {
    if steps == [] then []
    else AcceptedIn(enabled, steps[..|steps| - 1])
         + Accepted(LogRun(enabled, steps[..|steps| - 1]), steps[|steps| - 1])
  }

  lemma StepKeepsOrder<E(!new)>(s: LogState<E>, l: LogStep<E>)
    requires !l.WriteFail? && s.rows == s.written
    ensures LogNext(s, l).rows == LogNext(s, l).written
    ensures InOrder(LogNext(s, l)) == InOrder(s) + Accepted(s, l)
  {
    if l.Take? && s.queue != [] {
      assert s.queue == [s.queue[0]] + s.queue[1..];
    }
  }

  /** Duplicates and reordering come from failed writes only: without them, every written event
      has exactly one row, and rows, batch and queue together are in submission order. */
  lemma {:induction false} ExactlyOnceInOrder<E(!new)>(enabled: bool, steps: seq<LogStep<E>>)
    requires NoFailures(steps)
    ensures var s := LogRun(enabled, steps);
            s.rows == s.written && InOrder(s) == AcceptedIn(enabled, steps)
  {
    hide LogNext, Accepted, InOrder;
    if steps == [] {
      assert InOrder(Fresh<E>(enabled)) == [] by { FreshIsEmpty<E>(enabled); }
    } else {
      var init, last := steps[..|steps| - 1], steps[|steps| - 1];
      ExactlyOnceInOrder(enabled, init);
      StepKeepsOrder(LogRun(enabled, init), last);
    }
  }

  lemma FreshIsEmpty<E>(enabled: bool)
    ensures InOrder(Fresh<E>(enabled)) == []
  {
  }

  // ---------------------------------------------------------------- start-up and draining

  function LogFrom<E>(s: LogState<E>, steps: seq<LogStep<E>>): LogState<E>
    decreases |steps|
  {
    if steps == [] then s else LogFrom(LogNext(s, steps[0]), steps[1..])
  }

  /** Whether an event loop was running at the first emit, once there was one. */
  function FirstLoop<E>(steps: seq<LogStep<E>>): Option<bool> {
    if steps == [] then None
    else Earliest(FirstLoop(steps[..|steps| - 1]), steps[|steps| - 1])
  }

  function Earliest<E>(before: Option<bool>, l: LogStep<E>): Option<bool> {
    if before.None? && l.Emit? then Some(l.loopRunning) else before
  }

  /** How the loop seen by the first emit shows in a state. Without a flusher nothing ever leaves the
      queue; if the first emit came too early, its event is dropped, the next QUEUE_MAX events stay
      in the queue, and all later ones are dropped as well. */
  predicate Decided<E(==)>(s: LogState<E>, first: Option<bool>) {
    && (s.started <==> s.enabled && first == Some(true))
    && (s.created <==> s.enabled && first.Some?)
    && (!s.started ==> s.written == [] && s.rows == [] && s.batch == [] && s.phase.Waiting?)
    && (!s.created ==> s.submitted == [] && s.queue == [])
    && (s.created && !s.started ==>
          s.submitted != [] && s.queue == s.submitted[1..][..Min(QUEUE_MAX, |s.submitted| - 1)])
  }

  lemma StepKeepsDecision<E>(s: LogState<E>, first: Option<bool>, l: LogStep<E>)
    requires Decided(s, first)
    ensures Decided(LogNext(s, l), Earliest(first, l)) && LogNext(s, l).enabled == s.enabled
  {
    if l.Emit? && s.created && !s.started {
      var t := LogNext(s, l);
      assert t.submitted[1..] == s.submitted[1..] + [l.event];
    }
  }

  /** The flusher runs if and only if the very first event was emitted inside a running event loop;
      otherwise it never starts and nothing is ever written. */
  lemma {:induction false} FirstEmitDecides<E>(enabled: bool, steps: seq<LogStep<E>>)
    ensures var s := LogRun(enabled, steps);
            && s.enabled == enabled
            && (s.started <==> enabled && FirstLoop(steps) == Some(true))
            && (!s.started ==> s.written == [] && s.rows == [])
            && Decided(s, FirstLoop(steps))
  {
    if steps == [] {
      assert Decided(LogRun(enabled, steps), FirstLoop(steps));
    } else {
      var init := steps[..|steps| - 1];
      FirstEmitDecides(enabled, init);
      StepKeepsDecision(LogRun(enabled, init), FirstLoop(init), steps[|steps| - 1]);
    }
  }

  function Takes<E>(n: nat): seq<LogStep<E>> {
    if n == 0 then [] else [Take] + Takes(n - 1)
  }

  /** Collecting: taking n events in a row moves the oldest n, in order, from queue to batch. */
  lemma {:induction false} TakesMoveTheOldest<E(!new)>(s: LogState<E>, n: nat)
    requires s.started && (s.phase.Collecting? || (s.phase.Waiting? && s.batch == []))
    requires n <= |s.queue| && |s.batch| + n <= BATCH_MAX
    ensures var t := LogFrom(s, Takes(n));
            t.batch == s.batch + s.queue[..n] && t.queue == s.queue[n..] && (n > 0 ==> t.phase == Collecting)
    decreases n
  {
    if n > 0 {
      var next := LogNext(s, Take);
      assert Takes<E>(n)[1..] == Takes<E>(n - 1);
      TakesMoveTheOldest(next, n - 1);
      assert s.queue[..n] == [s.queue[0]] + s.queue[1..][..n - 1];
    }
  }

  /** Flushing one queued event in a batch of its own. */
  function FlushOne<E>(): seq<LogStep<E>> {
    [Take, Close, WriteOk]
  }

  function DrainSteps<E>(n: nat): seq<LogStep<E>> {
    if n == 0 then [] else FlushOne() + DrainSteps(n - 1)
  }

  lemma {:induction false} LogFromAppend<E>(s: LogState<E>, a: seq<LogStep<E>>, b: seq<LogStep<E>>)
    ensures LogFrom(s, a + b) == LogFrom(LogFrom(s, a), b)
    decreases |a|
  {
    if a == [] {
      assert a + b == b;
    } else {
      assert (a + b)[1..] == a[1..] + b;
      LogFromAppend(LogNext(s, a[0]), a[1..], b);
    }
  }

  /** No event gets stuck: a started, idle flusher whose writes succeed can always write out the
      whole queue, in order. */
  lemma {:induction false} QueueDrains<E(!new)>(s: LogState<E>)
    requires s.started && s.phase.Waiting? && s.batch == []
    ensures var t := LogFrom(s, DrainSteps(|s.queue|));
            t.queue == [] && t.batch == [] && t.written == s.written + s.queue
    decreases |s.queue|
  {
    hide LogNext;
    if s.queue != [] {
      FlushOneEffect(s);
      FlushesOne(s);
      LogFromAppend(s, FlushOne(), DrainSteps(|s.queue| - 1));
      QueueDrains(LogNext(LogNext(LogNext(s, Take), Close), WriteOk));
      assert s.queue == [s.queue[0]] + s.queue[1..];
    }
  }

  lemma FlushOneEffect<E(!new)>(s: LogState<E>)
    requires s.started && s.phase.Waiting? && s.batch == [] && s.queue != []
    ensures var t := LogNext(LogNext(LogNext(s, Take), Close), WriteOk);
            t.started && t.phase.Waiting? && t.batch == [] && t.queue == s.queue[1..]
            && t.written == s.written + [s.queue[0]]
  {
  }

  lemma FlushesOne<E>(s: LogState<E>)
    ensures LogFrom(s, FlushOne()) == LogNext(LogNext(LogNext(s, Take), Close), WriteOk)
  {
    hide LogNext;
    var steps: seq<LogStep<E>> := [Take, Close, WriteOk];
    assert steps[1..] == [Close, WriteOk] && steps[1..][1..] == [WriteOk] && steps[1..][1..][1..] == [];
    assert LogFrom(LogNext(LogNext(s, Take), Close), [WriteOk])
           == LogFrom(LogNext(LogNext(LogNext(s, Take), Close), WriteOk), []);
  }

  /** How a flusher gets back to waiting with writes that succeed, from wherever it stands. */
  function Resume<E>(phase: Phase): seq<LogStep<E>> {
    match phase
    case Waiting => []
    case Collecting => [Close, WriteOk]
    case Writing => [WriteOk]
    case Sleeping => [Wake]
  }

  lemma ResumeEffect<E(!new)>(s: LogState<E>)
    requires Conserved(s)
    ensures var t := LogFrom(s, Resume(s.phase));
            && t.started == s.started && t.phase.Waiting? && t.batch == [] && t.queue == s.queue
            && t.written == s.written + s.batch
  {
    var closed: seq<LogStep<E>> := [Close, WriteOk];
    var one: seq<LogStep<E>> := if s.phase.Sleeping? then [Wake] else [WriteOk];
    assert closed[1..] == [WriteOk] && closed[1..][1..] == [] && one[1..] == [];
    assert LogFrom(LogNext(s, one[0]), []) == LogNext(s, one[0]);
    assert LogFrom(LogNext(LogNext(s, Close), WriteOk), []) == LogNext(LogNext(s, Close), WriteOk);
    assert LogFrom(LogNext(s, Close), [WriteOk]) == LogFrom(LogNext(LogNext(s, Close), WriteOk), []);
  }

  /** No run gets the log stuck, failed writes included: if the flusher was started, writes that succeed
      from now on write out the batch in hand and then the whole queue, in order. */
  lemma EveryRunCanFinish<E(!new)>(enabled: bool, steps: seq<LogStep<E>>)
    requires LogRun(enabled, steps).started
    ensures var s := LogRun(enabled, steps);
            var t := LogFrom(s, Resume(s.phase) + DrainSteps(|s.queue|));
            t.queue == [] && t.batch == [] && t.written == s.written + s.batch + s.queue
  {
    hide LogRun, LogNext, DrainSteps, Resume, LogFrom;
    var s := LogRun(enabled, steps);
    NothingIsLostUncounted(enabled, steps);
    ResumeEffect(s);
    LogFromAppend(s, Resume(s.phase), DrainSteps(|s.queue|));
    QueueDrains(LogFrom(s, Resume(s.phase)));
  }

  /** What a write leaves in the database: all rows of the batch, or those inserted before it failed. */
  lemma RowsInserted<E>(s: LogState<E>, inserted: nat)
    requires s.phase.Writing? && inserted <= |s.batch|
    ensures LogNext(s, WriteOk).rows == s.rows + s.batch
    ensures LogNext(s, WriteFail(inserted)).rows == s.rows + s.batch[..inserted]
    ensures LogNext(s, WriteFail(inserted)).written == s.written
  {
  }

  // ---------------------------------------------------------------- the log as an object

  class Log<E(==)> {
    const enabled: bool
    var created: bool
    var started: bool
    var queue: seq<E>
    var dropped: nat
    var backoff: nat

    constructor (enabled: bool)
      ensures this.enabled == enabled && !created && !started && queue == [] && dropped == 0 && backoff == BACKOFF_MIN
    {
      this.enabled := enabled;
      created, started, queue, dropped, backoff := false, false, [], 0, BACKOFF_MIN;
    }

    /** This object's fields as a state, around a given batch and history. */
    function View(s: LogState<E>): LogState<E>
      reads this
    {
      s.(enabled := enabled, created := created, started := started, queue := queue, dropped := dropped)
    }

    /** Never blocks and never fails. */
    method Emit(ev: E, loopRunning: bool, ghost s: LogState<E>)
      modifies this
      ensures var t := EmitStep(old(View(s)), ev, loopRunning);
              && created == t.created && started == t.started && queue == t.queue && dropped == t.dropped
      ensures backoff == old(backoff)
    {
      if !enabled {
        return;
      }
      if !created {
        created := true;
        if !loopRunning {
          dropped := dropped + 1;
          return;
        }
        started := true;
      }
      if |queue| < QUEUE_MAX {
        queue := queue + [ev];
      } else {
        dropped := dropped + 1;
      }
    }

    /** Waits for a first event, then collects what else arrives before the interval ends. `queue`
        stands for the events that enter it until then, and arrivals[i] for the time at which event
        i does, counted from the first one being taken. */
    method CollectBatch(arrivals: seq<nat>) returns (batch: seq<E>)
      requires queue != [] && |arrivals| == |queue|
      requires forall i, j :: 0 <= i < j < |arrivals| ==> arrivals[i] <= arrivals[j]
      modifies this`queue
      ensures 1 <= |batch| <= 200
      ensures batch + queue == old(queue)
      ensures forall i :: 1 <= i < |batch| ==> arrivals[i] < 2_000
      ensures |batch| < 200 && queue != [] ==> arrivals[|batch|] >= 2_000
    {
      batch := [queue[0]];
      queue := queue[1..];
      var now := 0;
      while |batch| < BATCH_MAX
        invariant 1 <= |batch| <= BATCH_MAX
        invariant batch + queue == old(queue)
        invariant forall i :: 1 <= i < |batch| ==> arrivals[i] < FLUSH_INTERVAL
        invariant now < FLUSH_INTERVAL
        invariant now == 0 || (|batch| > 1 && now <= arrivals[|batch| - 1])
      {
        var timeout := FLUSH_INTERVAL - now;
        if queue == [] || arrivals[|batch|] >= now + timeout {
          break;   // nothing more arrives in time
        }
        now := Max(now, arrivals[|batch|]);
        batch := batch + [queue[0]];
        queue := queue[1..];
      }
    }

    /** Requeues what fits, event by event, and drops the rest. */
    method Requeue(batch: seq<E>)
      modifies this`queue, this`dropped
      ensures queue == old(queue) + batch[..Room(|old(queue)|, |batch|)]
      ensures dropped == old(dropped) + |batch| - Room(|old(queue)|, |batch|)
    {
      var i := 0;
      while i < |batch|
        invariant 0 <= i <= |batch|
        invariant queue == old(queue) + batch[..Room(|old(queue)|, i)]
        invariant dropped == old(dropped) + i - Room(|old(queue)|, i)
      {
        if |queue| < QUEUE_MAX {
          queue := queue + [batch[i]];
        } else {
          dropped := dropped + 1;
        }
        i := i + 1;
      }
    }

    /** One flusher round after a batch was collected: the write either succeeds, or the batch is
        requeued and the next attempt backs off twice as long, up to the limit. */
    method FinishRound(batch: seq<E>, ok: bool, ghost s: LogState<E>) returns (sleep: nat)
      requires s.batch == batch && s.phase.Writing? && s.backoff == backoff
      modifies this`queue, this`dropped, this`backoff
      ensures var t := if ok then LogNext(old(View(s)), WriteOk) else LogNext(old(View(s)), WriteFail(0));
              && queue == t.queue && dropped == t.dropped && backoff == t.backoff
      ensures sleep == if ok then 0 else old(backoff)
    {
      if ok {
        backoff := BACKOFF_MIN;
        sleep := 0;
      } else {
        Requeue(batch);
        sleep := backoff;
        backoff := Min(2 * backoff, BACKOFF_MAX);
      }
    }
  }
}
