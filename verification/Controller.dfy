/** N workers that share one work queue: every interleaving of their loops with the event
    handlers, the delay timers and the stop signal. */
module Controller {
  import opened Queues

  /** Where a worker is in its loop. `Finishing` is after the reconcile and its error handling
      and before the deferred `Done`. */
  datatype Worker = Idle | Running(key: Key) | Finishing(key: Key) | Exited

  datatype State = State(q: Queue, workers: seq<Worker>)

  datatype Event =
    | Enqueue(k: Key)
    | EnqueueAfter(k: Key)
    | DelayPassed(k: Key)
    | Start(w: nat)
    | Reconciled(w: nat, outcome: Outcome)
    | MarkDone(w: nat)
    | Exit(w: nat)
    | Stop

  predicate ByWorker(e: Event) {
    e.Start? || e.Reconciled? || e.MarkDone? || e.Exit?
  }

  predicate Enabled(s: State, e: Event) {
    match e
    case Enqueue(_) => true
    case EnqueueAfter(_) => true
    case DelayPassed(k) => k in s.q.waiting
    case Start(w) => w < |s.workers| && s.workers[w] == Idle && s.q.fifo != []
    case Reconciled(w, _) => w < |s.workers| && s.workers[w].Running?
    case MarkDone(w) => w < |s.workers| && s.workers[w].Finishing?
    case Exit(w) => w < |s.workers| && s.workers[w] == Idle && s.q.fifo == [] && s.q.shuttingDown
    case Stop => true
  }

  function Apply(s: State, e: Event): State
    requires Enabled(s, e)
  {
    match e
    case Enqueue(k) => s.(q := Add(s.q, k))
    case EnqueueAfter(k) => s.(q := AddRateLimited(s.q, k))
    case DelayPassed(k) => s.(q := Fire(s.q, k))
    case Start(w) => State(Take(s.q), s.workers[w := Running(s.q.fifo[0])])
    case Reconciled(w, outcome) =>
      var k := s.workers[w].key;
      State(AfterReconcile(s.q, k, outcome), s.workers[w := Finishing(k)])
    case MarkDone(w) => State(Finish(s.q, s.workers[w].key), s.workers[w := Idle])
    case Exit(w) => s.(workers := s.workers[w := Exited])
    case Stop => s.(q := ShutDown(s.q))
  }

  function Before(events: seq<Event>): seq<Event>
    requires events != []
  {
    events[..|events| - 1]
  }

  function Last(events: seq<Event>): Event
    requires events != []
  {
    events[|events| - 1]
  }

  /** The events can happen one after the other from `s`. */
  ghost predicate Executable(s: State, events: seq<Event>)
    decreases events, 0
  {
    events == [] || (Executable(s, Before(events)) && Enabled(After(s, Before(events)), Last(events)))
  }

  /** The state they lead to. */
  ghost function After(s: State, events: seq<Event>): State
    requires Executable(s, events)
    decreases events, 1
  {
    if events == [] then s else Apply(After(s, Before(events)), Last(events))
  }

  predicate Holds(worker: Worker, k: Key) {
    (worker.Running? || worker.Finishing?) && worker.key == k
  }

  /** `w` is the one worker that holds `k`. */
  ghost predicate OnlyHolder(s: State, w: int, k: Key) {
    && 0 <= w < |s.workers|
    && Holds(s.workers[w], k)
    && forall v | 0 <= v < |s.workers| && Holds(s.workers[v], k) :: v == w
  }

  ghost predicate Inv(s: State) {
    && Valid(s.q)
    && (forall w | 0 <= w < |s.workers| && (s.workers[w].Running? || s.workers[w].Finishing?) ::
          s.workers[w].key in s.q.processing)
    && (forall k | k in s.q.processing :: exists w :: OnlyHolder(s, w, k))
    && (forall w | 0 <= w < |s.workers| && s.workers[w].Exited? :: s.q.shuttingDown)
    && (s.q.fifo != [] && |s.workers| > 0 ==> exists w :: 0 <= w < |s.workers| && !s.workers[w].Exited?)
  }

  function Initial(threads: nat): State {
    State(EmptyQueue(), seq(threads, _ => Idle))
  }

  lemma QueueEventKeepsInv(s: State, q': Queue)
    requires Inv(s) && Valid(q') && q'.processing == s.q.processing
    requires s.q.shuttingDown ==> q'.shuttingDown && q'.fifo == s.q.fifo
    ensures Inv(s.(q := q'))
  {
    var s' := s.(q := q');
    forall k | k in q'.processing ensures exists w :: OnlyHolder(s', w, k) {
      var w :| OnlyHolder(s, w, k);
      assert OnlyHolder(s', w, k);
    }
    if q'.fifo != [] && |s.workers| > 0 && !s.q.shuttingDown {
      assert !s.workers[0].Exited?;
    }
  }

  lemma StartKeepsInv(s: State, w: nat)
    requires Inv(s) && Enabled(s, Start(w))
    ensures Inv(Apply(s, Start(w)))
  {
    var s', key := Apply(s, Start(w)), s.q.fifo[0];
    TakeFacts(s.q);
    forall k | k in s'.q.processing ensures exists v :: OnlyHolder(s', v, k) {
      if k == key {
        assert OnlyHolder(s', w, k);
      } else {
        var v :| OnlyHolder(s, v, k);
        assert OnlyHolder(s', v, k);
      }
    }
    assert !s'.workers[w].Exited?;
  }

  lemma DoneKeepsInv(s: State, w: nat)
    requires Inv(s) && Enabled(s, MarkDone(w))
    ensures Inv(Apply(s, MarkDone(w)))
  {
    var s', key := Apply(s, MarkDone(w)), s.workers[w].key;
    FinishKeepsValid(s.q, key);
    var h :| OnlyHolder(s, h, key);
    forall k | k in s'.q.processing ensures exists v :: OnlyHolder(s', v, k) {
      var v :| OnlyHolder(s, v, k);
      assert OnlyHolder(s', v, k);
    }
    assert !s'.workers[w].Exited?;
  }

  lemma ReconciledKeepsInv(s: State, w: nat, outcome: Outcome)
    requires Inv(s) && Enabled(s, Reconciled(w, outcome))
    ensures Inv(Apply(s, Reconciled(w, outcome)))
  {
    var s' := Apply(s, Reconciled(w, outcome));
    forall k | k in s'.q.processing ensures exists v :: OnlyHolder(s', v, k) {
      var v :| OnlyHolder(s, v, k);
      assert OnlyHolder(s', v, k);
    }
    assert !s'.workers[w].Exited?;
  }

  lemma ExitKeepsInv(s: State, w: nat)
    requires Inv(s) && Enabled(s, Exit(w))
    ensures Inv(Apply(s, Exit(w)))
  {
    var s' := Apply(s, Exit(w));
    forall k | k in s'.q.processing ensures exists v :: OnlyHolder(s', v, k) {
      var v :| OnlyHolder(s, v, k);
      assert OnlyHolder(s', v, k);
    }
  }

  lemma StepKeepsInv(s: State, e: Event)
    requires Inv(s) && Enabled(s, e)
    ensures Inv(Apply(s, e))
  {
    match e
    case Enqueue(k) => OperationsKeepValid(s.q, k); QueueEventKeepsInv(s, Add(s.q, k));
    case EnqueueAfter(k) => OperationsKeepValid(s.q, k); QueueEventKeepsInv(s, AddRateLimited(s.q, k));
    case DelayPassed(k) => OperationsKeepValid(s.q, k); QueueEventKeepsInv(s, Fire(s.q, k));
    case Start(w) => StartKeepsInv(s, w);
    case Reconciled(w, outcome) => ReconciledKeepsInv(s, w, outcome);
    case MarkDone(w) => DoneKeepsInv(s, w);
    case Exit(w) => ExitKeepsInv(s, w);
    case Stop => QueueEventKeepsInv(s, ShutDown(s.q));
  }

  lemma {:induction false} RunKeepsInv(s: State, events: seq<Event>)
    requires Inv(s) && Executable(s, events)
    ensures Inv(After(s, events))
  {
    if events != [] {
      RunKeepsInv(s, Before(events));
      StepKeepsInv(After(s, Before(events)), Last(events));
    }
  }

  /** One turn of the loop that nobody interrupts, as the shared queue performs it, is three steps here. */
  lemma TurnIsThreeSteps(s: State, w: nat, outcome: Outcome)
    requires Inv(s) && Enabled(s, Start(w))
    ensures var k, s1 := s.q.fifo[0], Apply(s, Start(w));
            && Enabled(s1, Reconciled(w, outcome))
            && var s2 := Apply(s1, Reconciled(w, outcome));
            && Enabled(s2, MarkDone(w))
            && Apply(s2, MarkDone(w)) == s.(q := Finish(AfterReconcile(Take(s.q), k, outcome), k))
  {
    var k := s.q.fifo[0];
    assert s.workers[w := Running(k)][w := Finishing(k)][w := Idle] == s.workers;
  }

  /** No key is ever held by two workers, in any run of any number of workers. */
  lemma NeverHeldTwice(threads: nat, events: seq<Event>, v: nat, w: nat, k: Key)
    requires Executable(Initial(threads), events)
    requires v < |After(Initial(threads), events).workers| && w < |After(Initial(threads), events).workers|
    requires Holds(After(Initial(threads), events).workers[v], k)
    requires Holds(After(Initial(threads), events).workers[w], k)
    ensures v == w
  {
    RunKeepsInv(Initial(threads), events);
    var h :| OnlyHolder(After(Initial(threads), events), h, k);
  }

  // ---------------------------------------------------------- no lost wakeup

  /** In this run, `k` was enqueued (or its reconcile failed for a transient reason) on the open
      queue, and no worker has started on it since. */
  ghost predicate Owed(s: State, events: seq<Event>, k: Key)
    requires Executable(s, events)
  {
    events != [] &&
    var t, e := After(s, Before(events)), Last(events);
    if e.Start? && t.q.fifo[0] == k then false
    else
      || (!t.q.shuttingDown && (e == Enqueue(k) || e == EnqueueAfter(k)))
      || (!t.q.shuttingDown && e.Reconciled? && e.outcome == Transient && t.workers[e.w] == Running(k))
      || Owed(s, Before(events), k)
  }

  /** `k` is in the FIFO, waits for its delay, or will be queued by the worker that holds it. */
  ghost predicate Pending(s: State, k: Key) {
    || k in s.q.fifo
    || k in s.q.waiting
    || (k in s.q.dirty && exists w :: OnlyHolder(s, w, k))
  }

  lemma {:induction false} OwedIsDirtyOrWaiting(s: State, events: seq<Event>, k: Key)
    requires Inv(s) && Executable(s, events) && Owed(s, events, k)
    requires !After(s, events).q.shuttingDown
    ensures k in After(s, events).q.dirty + After(s, events).q.waiting
  {
    var t, e := After(s, Before(events)), Last(events);
    RunKeepsInv(s, Before(events));
    if Owed(s, Before(events), k) {
      OwedIsDirtyOrWaiting(s, Before(events), k);
    }
  }

  /** Before shutdown, a key enqueued since its latest reconcile began is still pending. */
  lemma NoLostWakeup(threads: nat, events: seq<Event>, k: Key)
    requires Executable(Initial(threads), events) && Owed(Initial(threads), events, k)
    requires !After(Initial(threads), events).q.shuttingDown
    ensures Pending(After(Initial(threads), events), k)
  {
    OwedIsDirtyOrWaiting(Initial(threads), events, k);
    RunKeepsInv(Initial(threads), events);
  }

  // ------------------------------------------------- the queue is its history

  /** In this run, `k` was put to wait, or its reconcile failed for a transient reason, on the open queue, and
      its delay has not passed since. */
  ghost predicate WaitOwed(s: State, events: seq<Event>, k: Key)
    requires Executable(s, events)
  {
    events != [] &&
    var t, e := After(s, Before(events)), Last(events);
    if e == DelayPassed(k) then false
    else
      || e == EnqueueAfter(k)
      || (e.Reconciled? && e.outcome == Transient && t.workers[e.w] == Running(k))
      || WaitOwed(s, Before(events), k)
  }

  /** ... was enqueued, or its delay passed, and no worker has started on it since. */
  ghost predicate StartOwed(s: State, events: seq<Event>, k: Key)
    requires Executable(s, events)
  {
    events != [] &&
    var t, e := After(s, Before(events)), Last(events);
    if e.Start? && t.q.fifo[0] == k then false
    else e == Enqueue(k) || e == DelayPassed(k) || StartOwed(s, Before(events), k)
  }

  lemma QueueStep(s: State, e: Event, k: Key)
    requires Inv(s) && Enabled(s, e) && !Apply(s, e).q.shuttingDown
    ensures !s.q.shuttingDown
    ensures k in Apply(s, e).q.waiting <==>
            e != DelayPassed(k) &&
            (e == EnqueueAfter(k) || (e.Reconciled? && e.outcome == Transient && s.workers[e.w] == Running(k))
             || k in s.q.waiting)
    ensures k in Apply(s, e).q.dirty <==>
            !(e.Start? && s.q.fifo[0] == k) && (e == Enqueue(k) || e == DelayPassed(k) || k in s.q.dirty)
  {
    if e.Start? {
      TakeFacts(s.q);
    }
  }

  /** On an open queue exactly those keys wait, and exactly those are to be started on, that the history of the
      run says. In particular neither a success nor a permanent error puts a key back. */
  lemma {:induction false} QueueIsItsHistory(threads: nat, events: seq<Event>, k: Key)
    requires Executable(Initial(threads), events) && !After(Initial(threads), events).q.shuttingDown
    ensures k in After(Initial(threads), events).q.waiting <==> WaitOwed(Initial(threads), events, k)
    ensures k in After(Initial(threads), events).q.dirty <==> StartOwed(Initial(threads), events, k)
  {
    if events != [] {
      var t, e := After(Initial(threads), Before(events)), Last(events);
      RunKeepsInv(Initial(threads), Before(events));
      QueueStep(t, e, k);
      hide Inv, Apply, Enabled;
      QueueIsItsHistory(threads, Before(events), k);
    }
  }

  // ---------------------------------------------------------- first in, first out

  /** `a` is queued before `b`. */
  ghost predicate Ahead(q: Queue, a: Key, b: Key) {
    exists i, j :: 0 <= i < j < |q.fifo| && q.fifo[i] == a && q.fifo[j] == b
  }

  lemma StepKeepsOrder(s: State, e: Event, a: Key, b: Key)
    requires Inv(s) && Enabled(s, e) && Ahead(s.q, a, b)
    requires !(e.Start? && s.q.fifo[0] == a)
    ensures Ahead(Apply(s, e).q, a, b) && !(e.Start? && s.q.fifo[0] == b)
  {
    var i, j :| 0 <= i < j < |s.q.fifo| && s.q.fifo[i] == a && s.q.fifo[j] == b;
    var q' := Apply(s, e).q;
    if e.Start? {
      assert q'.fifo[i - 1] == a && q'.fifo[j - 1] == b;
    } else {
      assert q'.fifo[i] == a && q'.fifo[j] == b;
    }
  }

  /** Of two queued keys the one queued first is started on first: until then both keep their order, and no
      worker starts on the second. */
  lemma {:induction false} FirstInFirstOut(s: State, events: seq<Event>, a: Key, b: Key)
    requires Inv(s) && Executable(s, events) && Ahead(s.q, a, b) && Starts(s, events, a) == 0
    ensures Ahead(After(s, events).q, a, b) && Starts(s, events, b) == 0
  {
    hide Inv, Apply, Enabled, Ahead;
    if events != [] {
      FirstInFirstOut(s, Before(events), a, b);
      RunKeepsInv(s, Before(events));
      StepKeepsOrder(After(s, Before(events)), Last(events), a, b);
    }
  }

  /** A key that is neither queued nor held comes last. */
  lemma NewKeyComesLast(s: State, a: Key, b: Key)
    requires Inv(s) && !s.q.shuttingDown && a in s.q.fifo && b !in s.q.dirty && b !in s.q.processing
    ensures Ahead(Apply(s, Enqueue(b)).q, a, b)
  {
    var i :| 0 <= i < |s.q.fifo| && s.q.fifo[i] == a;
    var q' := Apply(s, Enqueue(b)).q;
    assert q'.fifo[i] == a && q'.fifo[|s.q.fifo|] == b;
  }

  // --------------------------------------------------------- shutdown drains

  function Weight(worker: Worker): nat {
    match worker
    case Exited => 0
    case Idle => 1
    case Finishing(_) => 2
    case Running(_) => 3
  }

  function TotalWeight(workers: seq<Worker>): nat {
    if workers == [] then 0 else Weight(workers[0]) + TotalWeight(workers[1..])
  }

  lemma {:induction false} WeightUpdate(workers: seq<Worker>, w: nat, to: Worker)
    requires w < |workers|
    ensures TotalWeight(workers[w := to]) == TotalWeight(workers) - Weight(workers[w]) + Weight(to)
    ensures TotalWeight(workers) >= Weight(workers[w])
  {
    if w == 0 {
      assert workers[w := to][1..] == workers[1..];
    } else {
      WeightUpdate(workers[1..], w - 1, to);
      assert workers[w := to][1..] == workers[1..][w - 1 := to];
    }
  }

  /** The number of worker events left after stop. */
  function Remaining(s: State): nat {
    3 * |s.q.dirty| + TotalWeight(s.workers)
  }

  lemma StartTakesOne(s: State, w: nat)
    requires Inv(s) && Enabled(s, Start(w))
    ensures Remaining(Apply(s, Start(w))) == Remaining(s) - 1
  {
    var k := s.q.fifo[0];
    TakeFacts(s.q);
    hide Valid, TotalWeight;
    WeightUpdate(s.workers, w, Running(k));
    assert |s.q.dirty - {k}| == |s.q.dirty| - 1;
  }

  /** After stop every worker event takes exactly one off, and nothing else has an effect. */
  lemma DrainStep(s: State, e: Event)
    requires Inv(s) && s.q.shuttingDown && Enabled(s, e)
    ensures Apply(s, e).q.shuttingDown && Apply(s, e).q.waiting == {}
    ensures |Apply(s, e).workers| == |s.workers|
    ensures ByWorker(e) ==> Remaining(Apply(s, e)) == Remaining(s) - 1
    ensures !ByWorker(e) ==> Apply(s, e) == s
  {
    assert s.q.waiting == {};
    hide Valid, TotalWeight;
    match e {
      case Start(w) => StartTakesOne(s, w);
      case Reconciled(w, _) => WeightUpdate(s.workers, w, Finishing(s.workers[w].key));
      case MarkDone(w) => WeightUpdate(s.workers, w, Idle);
      case Exit(w) => WeightUpdate(s.workers, w, Exited);
      case _ =>
    }
  }

  /** While a worker is left, some worker can move. */
  lemma DrainProgress(s: State) returns (e: Event)
    requires Inv(s) && s.q.shuttingDown
    requires exists w :: 0 <= w < |s.workers| && !s.workers[w].Exited?
    ensures ByWorker(e) && Enabled(s, e)
  {
    var w :| 0 <= w < |s.workers| && !s.workers[w].Exited?;
    e := match s.workers[w]
         case Idle => if s.q.fifo == [] then Exit(w) else Start(w)
         case Running(_) => Reconciled(w, Success)
         case Finishing(_) => MarkDone(w);
  }

  ghost function WorkerEvents(events: seq<Event>): nat {
    if events == [] then 0 else WorkerEvents(Before(events)) + if ByWorker(Last(events)) then 1 else 0
  }

  /** How often a worker starts on `k`. */
  ghost function Starts(s: State, events: seq<Event>, k: Key): nat
    requires Executable(s, events)
  {
    if events == [] then 0
    else
      var t, e := After(s, Before(events)), Last(events);
      Starts(s, Before(events), k) + if e.Start? && t.q.fifo[0] == k then 1 else 0
  }

  lemma {:induction false} DrainRun(s: State, events: seq<Event>, k: Key)
    requires Inv(s) && s.q.shuttingDown && Executable(s, events)
    ensures var t := After(s, events);
            && t.q.shuttingDown && t.q.waiting == {} && |t.workers| == |s.workers|
            && WorkerEvents(events) + Remaining(t) == Remaining(s)
            && Starts(s, events, k) + (if k in t.q.dirty then 1 else 0) == if k in s.q.dirty then 1 else 0
  {
    assert s.q.waiting == {};
    hide Inv, Apply, Enabled, Remaining, ByWorker;
    if events != [] {
      DrainRun(s, Before(events), k);
      RunKeepsInv(s, Before(events));
      var t, e := After(s, Before(events)), Last(events);
      DrainStep(t, e);
      OnlyStartsClean(t, e, k);
    }
  }

  /** After stop a key stays dirty until a worker starts on it, and none becomes dirty. */
  lemma OnlyStartsClean(s: State, e: Event, k: Key)
    requires Inv(s) && s.q.shuttingDown && Enabled(s, e)
    ensures e.Start? ==> s.q.fifo != []
    ensures k in Apply(s, e).q.dirty <==> k in s.q.dirty && !(e.Start? && s.q.fifo[0] == k)
    ensures e.Start? && s.q.fifo[0] == k ==> k in s.q.dirty
  {
    assert s.q.waiting == {};
    if e.Start? { TakeFacts(s.q); }
  }

  lemma {:induction false} NothingRemains(workers: seq<Worker>)
    ensures TotalWeight(workers) == 0 <==> forall w | 0 <= w < |workers| :: workers[w].Exited?
  {
    if workers != [] {
      NothingRemains(workers[1..]);
      assert forall w | 0 < w < |workers| :: workers[w] == workers[1..][w - 1];
    }
  }

  /** `Run` has come back: the queue length was zero and every worker has left. */
  ghost predicate Returned(s: State) {
    s.q.shuttingDown && s.q.fifo == [] && forall w | 0 <= w < |s.workers| :: s.workers[w].Exited?
  }

  /** A run after stop, with at least one worker, can always go on until `Run` returns; it does
      so after exactly `Remaining` worker events, whatever the interleaving; by then every key
      that was dirty at stop was started on exactly once, every other key never, and no key
      was put back. */
  lemma ShutdownDrains(s: State, events: seq<Event>, k: Key)
    requires Inv(s) && s.q.shuttingDown && |s.workers| > 0 && Executable(s, events)
    ensures WorkerEvents(events) <= Remaining(s)
    ensures Returned(After(s, events)) <==> WorkerEvents(events) == Remaining(s)
    ensures !Returned(After(s, events)) ==> exists e :: ByWorker(e) && Enabled(After(s, events), e)
    ensures Returned(After(s, events)) ==>
              && After(s, events).q.dirty == {} && After(s, events).q.waiting == {}
              && Starts(s, events, k) == if k in s.q.dirty then 1 else 0
  {
    var t := After(s, events);
    DrainRun(s, events, k);
    RunKeepsInv(s, events);
    NothingRemains(t.workers);
    if forall w | 0 <= w < |t.workers| :: t.workers[w].Exited? {
      assert forall x | x in t.q.processing :: exists w :: OnlyHolder(t, w, x);
      assert t.q.dirty <= set x | x in t.q.fifo;
    } else {
      var e := DrainProgress(t);
    }
  }

  /** With no worker at all `Run` returns if and only if the queue was empty at stop. */
  lemma {:induction false} NoWorkerNoDrain(s: State, events: seq<Event>)
    requires Inv(s) && s.q.shuttingDown && s.workers == [] && Executable(s, events)
    ensures Returned(After(s, events)) <==> s.q.fifo == []
    ensures After(s, events) == s
  {
    if events != [] {
      NoWorkerNoDrain(s, Before(events));
      DrainStep(s, Last(events));
    }
  }
}
