/** The rate-limited work queue of client-go as a value: the FIFO, the dirty set, the
    processing set and the keys waiting for a delay. */
module Queues {

  /** A namespaced name, the type of key the controllers queue. */
  datatype Key = Key(namespace: string, name: string)

  datatype Queue = Queue(fifo: seq<Key>, dirty: set<Key>, processing: set<Key>, waiting: set<Key>, shuttingDown: bool)

  function EmptyQueue(): Queue {
    Queue([], {}, {}, {}, false)
  }

  /** What the queue keeps: the FIFO lists, once each, the dirty keys nobody processes. */
  ghost predicate Valid(q: Queue) {
    && (forall i, j | 0 <= i < j < |q.fifo| :: q.fifo[i] != q.fifo[j])
    && (forall k :: k in q.fifo <==> k in q.dirty && k !in q.processing)
    && (q.shuttingDown ==> q.waiting == {})
  }

  function Add(q: Queue, k: Key): Queue {
    if q.shuttingDown || k in q.dirty then q
    else if k in q.processing then q.(dirty := q.dirty + {k})
    else q.(dirty := q.dirty + {k}, fifo := q.fifo + [k])
  }

  function Take(q: Queue): Queue
    requires q.fifo != []
  {
    q.(fifo := q.fifo[1..], processing := q.processing + {q.fifo[0]}, dirty := q.dirty - {q.fifo[0]})
  }

  function Finish(q: Queue, k: Key): Queue {
    q.(processing := q.processing - {k}, fifo := if k in q.dirty then q.fifo + [k] else q.fifo)
  }

  /** A rate limiter's delay is positive, so the key first waits. */
  function AddRateLimited(q: Queue, k: Key): Queue {
    if q.shuttingDown then q else q.(waiting := q.waiting + {k})
  }

  /** A delay has passed. */
  function Fire(q: Queue, k: Key): Queue {
    Add(q.(waiting := q.waiting - {k}), k)
  }

  /** Shutting down stops the waiting loop, which drops what it holds. */
  function ShutDown(q: Queue): Queue {
    q.(shuttingDown := true, waiting := {})
  }

  lemma TakeFacts(q: Queue)
    requires Valid(q) && q.fifo != []
    ensures var k := q.fifo[0];
            Valid(Take(q)) && k in q.dirty && k !in q.processing && k !in Take(q).dirty
  {
    var k, q' := q.fifo[0], Take(q);
    assert forall j | 0 < j < |q.fifo| :: q.fifo[j] != k;
    assert forall x :: x in q'.fifo <==> x in q.fifo && x != k;
  }

  lemma FinishKeepsValid(q: Queue, k: Key)
    requires Valid(q) && k in q.processing
    ensures Valid(Finish(q, k))
  {
    assert k !in q.fifo;
  }

  /** Every operation keeps the queue valid. */
  lemma OperationsKeepValid(q: Queue, k: Key)
    requires Valid(q)
    ensures Valid(Add(q, k)) && Valid(AddRateLimited(q, k)) && Valid(ShutDown(q)) && Valid(Fire(q, k))
    ensures q.fifo != [] ==> Valid(Take(q))
    ensures k in q.processing ==> Valid(Finish(q, k))
  {
    if q.fifo != [] { TakeFacts(q); }
    if k in q.processing { FinishKeepsValid(q, k); }
  }

  /** How a reconcile ends. */
  datatype Outcome = Success | Transient | Permanent

  /** The queue after a reconcile of `k` and before its deferred `Done`: only a transient
      error while the queue is open puts the key back. */
  function AfterReconcile(q: Queue, k: Key, outcome: Outcome): Queue {
    if outcome == Transient && !q.shuttingDown then AddRateLimited(q, k) else q
  }
}
