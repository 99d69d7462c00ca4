/** The work queue as the object that the controller's workers share. */
module WorkQueue {
  import opened Wrappers
  import Queues

  class SharedQueue {
    var fifo: seq<Queues.Key>
    var dirty: set<Queues.Key>
    var processing: set<Queues.Key>
    var waiting: set<Queues.Key>
    var shuttingDown: bool

    function Model(): Queues.Queue
      reads this
    {
      Queues.Queue(fifo, dirty, processing, waiting, shuttingDown)
    }

    constructor ()
      ensures Model() == Queues.EmptyQueue()
    {
      fifo, dirty, processing, waiting, shuttingDown := [], {}, {}, {}, false;
    }

    method Add(item: Queues.Key)
      modifies this
      ensures Model() == Queues.Add(old(Model()), item)
    {
      if shuttingDown {
        return;
      }
      if item in dirty {
        return;
      }
      dirty := dirty + {item};
      if item in processing {
        return;
      }
      fifo := fifo + [item];
    }

    /** Returns once there is an item or the queue shuts down. */
    method Get() returns (item: Option<Queues.Key>, shutdown: bool)
      requires fifo != [] || shuttingDown
      modifies this
      ensures shutdown <==> old(fifo) == []
      ensures shutdown ==> item == None && Model() == old(Model())
      ensures !shutdown ==> item == Some(old(fifo)[0]) && Model() == Queues.Take(old(Model()))
    {
      if fifo == [] {
        return None, true;
      }
      var k := fifo[0];
      fifo := fifo[1..];
      processing := processing + {k};
      dirty := dirty - {k};
      return Some(k), false;
    }

    method Done(item: Queues.Key)
      modifies this
      ensures Model() == Queues.Finish(old(Model()), item)
    {
      processing := processing - {item};
      if item in dirty {
        fifo := fifo + [item];
      }
    }

    method ShutDown()
      modifies this
      ensures Model() == Queues.ShutDown(old(Model()))
    {
      shuttingDown := true;
      waiting := {};
    }

    method HandleErr(item: Queues.Key, permanent: bool)
      modifies this
      ensures Model() == Queues.AfterReconcile(old(Model()), item, if permanent then Queues.Permanent else Queues.Transient)
    {
      if !permanent && !shuttingDown {
        waiting := waiting + {item};
      }
    }

    /** One turn of a worker's loop: an item is taken, reconciled with the given outcome,
        put back only after a transient error on an open queue, and always marked done. */
    method ProcessNextWorkItem(outcome: Queues.Outcome) returns (more: bool)
      requires Queues.Valid(Model())
      requires fifo != [] || shuttingDown
      modifies this
      ensures Queues.Valid(Model())
      ensures more <==> old(fifo) != []
      ensures !more ==> Model() == old(Model())
      ensures more ==> var k := old(fifo)[0];
                       Model() == Queues.Finish(Queues.AfterReconcile(Queues.Take(old(Model())), k, outcome), k)
    {
      var item, shutdown := Get();
      if shutdown {
        return false;
      }
      Queues.TakeFacts(old(Model()));
      var key := item.value;
      match outcome {
        case Success =>
        case Transient => HandleErr(key, false);
        case Permanent => HandleErr(key, true);
      }
      Done(key);
      Queues.OperationsKeepValid(Queues.Take(old(Model())), key);
      Queues.FinishKeepsValid(Queues.AfterReconcile(Queues.Take(old(Model())), key, outcome), key);
      return true;
    }
  }
}
