/** How a carve reaches the record: the driver changes the group and then tags the volume, the tag
    becomes an event, the event wakes the agent's workers up, and a worker copies its cached record,
    measures the group and writes, requeuing itself when the write conflicts. */
module Quiescence {
  import opened Wrappers
  import opened LocalVolumes
  import opened Queues
  import Controller

  /** A worker of the agent. Once it has copied the record it works on this node's key. */
  datatype Worker =
    | Idle
    | Started(key: Key)
    | Copied(copy: Record)
    | Measured(copy: Record, next: Status)
    | Failing
    | Finishing(key: Key)

  /** `changing` are the publishes and collections that changed the group and have not written the
      volume yet; `undelivered` the volume writes whose event is still on its way; `notices` the
      versions of the record that reached the cache and whose handler is still to be called. */
  datatype State = State(
    node: Key, vg: VGInfo, store: Record, history: set<Record>, cache: Option<Record>, notices: set<nat>,
    changing: set<string>, undelivered: set<string>, q: Queue, workers: seq<Worker>)

  datatype Event =
    | ChangeGroup(op: string, vg: VGInfo)
    | WriteVolume(op: string)
    | DeliverVolume(op: string)
    | Reserve(keys: set<string>)
    | DeliverRecord(r: Record)
    | Notify(version: nat)
    | Enqueue(k: Key)
    | DelayPassed(k: Key)
    | Start(w: nat)
    | Copy(w: nat)
    | Measure(w: nat, bound: set<string>)
    | GroupUnreadable(w: nat)
    | Write(w: nat)
    | HandleErr(w: nat)
    | MarkDone(w: nat)

  predicate At(s: State, w: nat, worker: Worker) {
    w < |s.workers| && s.workers[w] == worker
  }

  predicate Enabled(s: State, e: Event) {
    match e
    case ChangeGroup(op, _) => op !in s.changing
    case WriteVolume(op) => op in s.changing
    case DeliverVolume(op) => op in s.undelivered
    case Reserve(_) => true
    case DeliverRecord(r) => r in s.history && (s.cache.Some? ==> s.cache.value.version < r.version)
    case Notify(version) => version in s.notices
    case Enqueue(_) => true
    case DelayPassed(k) => k in s.q.waiting
    case Start(w) => At(s, w, Idle) && s.q.fifo != []
    case Copy(w) => w < |s.workers| && s.workers[w].Started?
    case Measure(w, _) => w < |s.workers| && s.workers[w].Copied?
    case GroupUnreadable(w) => w < |s.workers| && s.workers[w].Copied?
    case Write(w) => w < |s.workers| && s.workers[w].Measured?
    case HandleErr(w) => At(s, w, Failing)
    case MarkDone(w) => w < |s.workers| && s.workers[w].Finishing?
  }

  function Store(s: State, status: Status): State {
    var r := Record(s.store.version + 1, status);
    s.(store := r, history := s.history + {r})
  }

  function Move(s: State, w: nat, worker: Worker): State
    requires w < |s.workers|
  {
    s.(workers := s.workers[w := worker])
  }

  function Apply(s: State, e: Event): State
    requires Enabled(s, e)
  {
    match e
    case ChangeGroup(op, vg) => s.(vg := vg, changing := s.changing + {op})
    case WriteVolume(op) => s.(changing := s.changing - {op}, undelivered := s.undelivered + {op})
    case DeliverVolume(op) => s.(undelivered := s.undelivered - {op}, q := Add(s.q, s.node))
    case Reserve(keys) => Store(s, WithKeys(s.store.status, keys))
    case DeliverRecord(r) => s.(cache := Some(r), notices := s.notices + {r.version})
    case Notify(version) => s.(notices := s.notices - {version}, q := Add(s.q, s.node))
    case Enqueue(k) => s.(q := Add(s.q, k))
    case DelayPassed(k) => s.(q := Fire(s.q, k))
    case Start(w) => Move(s, w, Started(s.q.fifo[0])).(q := Take(s.q))
    case Copy(w) =>
      var k := s.workers[w].key;
      Move(s, w, if k == s.node && s.cache.Some? then Copied(s.cache.value) else Finishing(k))
    case Measure(w, bound) =>
      var copy := s.workers[w].copy;
      Move(s, w, Measured(copy, Refreshed(copy.status, s.vg, bound)))
    case GroupUnreadable(w) => Move(s, w, Finishing(s.node))
    case Write(w) =>
      var Measured(copy, next) := s.workers[w];
      if next == copy.status then Move(s, w, Finishing(s.node))
      else if copy.version == s.store.version then Store(Move(s, w, Finishing(s.node)), next)
      else Move(s, w, Failing)
    case HandleErr(w) => Move(s, w, Finishing(s.node)).(q := AddRateLimited(s.q, s.node))
    case MarkDone(w) => Move(s, w, Idle).(q := Finish(s.q, s.workers[w].key))
  }

  /** A freshly registered node, its record not yet in the agent's cache. */
  ghost predicate Initial(s: State) {
    && s.store == Record(1, Status(0, 0, {})) && s.history == {s.store} && s.cache == None && s.notices == {}
    && s.changing == {} && s.undelivered == {} && s.q == EmptyQueue()
    && forall w | 0 <= w < |s.workers| :: s.workers[w] == Idle
  }

  // ------------------------------------------- the controller underneath

  function ControllerWorker(worker: Worker, node: Key): Controller.Worker {
    match worker
    case Idle => Controller.Idle
    case Started(k) => Controller.Running(k)
    case Copied(_) => Controller.Running(node)
    case Measured(_, _) => Controller.Running(node)
    case Failing => Controller.Running(node)
    case Finishing(k) => Controller.Finishing(k)
  }

  function Workers(s: State): (ws: seq<Controller.Worker>)
    ensures |ws| == |s.workers|
    ensures forall w | 0 <= w < |ws| :: ws[w] == ControllerWorker(s.workers[w], s.node)
  {
    seq(|s.workers|, w requires 0 <= w < |s.workers| => ControllerWorker(s.workers[w], s.node))
  }

  function ControllerState(s: State): Controller.State {
    Controller.State(s.q, Workers(s))
  }

  /** The controller's view of an event; `None` when it does not notice. */
  function ControllerEvent(s: State, e: Event): Option<Controller.Event>
    requires Enabled(s, e)
  {
    match e
    case DeliverVolume(_) => Some(Controller.Enqueue(s.node))
    case Notify(_) => Some(Controller.Enqueue(s.node))
    case Enqueue(k) => Some(Controller.Enqueue(k))
    case DelayPassed(k) => Some(Controller.DelayPassed(k))
    case Start(w) => Some(Controller.Start(w))
    case Copy(w) =>
      if s.workers[w].key == s.node && s.cache.Some? then None else Some(Controller.Reconciled(w, Success))
    case GroupUnreadable(w) => Some(Controller.Reconciled(w, Success))
    case Write(w) =>
      if s.workers[w].next == s.workers[w].copy.status || s.workers[w].copy.version == s.store.version
      then Some(Controller.Reconciled(w, Success)) else None
    case HandleErr(w) => Some(Controller.Reconciled(w, Transient))
    case MarkDone(w) => Some(Controller.MarkDone(w))
    case _ => None
  }

  /** Every step of the agent is a step of its controller or leaves the controller alone. */
  lemma AgentRefinesController(s: State, e: Event)
    requires Enabled(s, e) && !s.q.shuttingDown
    ensures ControllerEvent(s, e).None? ==> ControllerState(Apply(s, e)) == ControllerState(s)
    ensures ControllerEvent(s, e).Some? ==>
              && Controller.Enabled(ControllerState(s), ControllerEvent(s, e).value)
              && ControllerState(Apply(s, e)) == Controller.Apply(ControllerState(s), ControllerEvent(s, e).value)
    ensures !Apply(s, e).q.shuttingDown
  {
    var ce, s' := ControllerEvent(s, e), Apply(s, e);
    if ce.None? {
      assert Workers(s') == Workers(s);
    } else {
      assert Workers(s') == Controller.Apply(ControllerState(s), ce.value).workers;
    }
  }

  // ------------------------------------------------------ what is still owed

  predicate Agrees(s: State) {
    s.store.status.freeSize == s.vg.vgFree / 1024
  }

  /** This worker is going to bring the record up to date or to requeue the key. */
  predicate WorkerOwes(s: State, worker: Worker) {
    || worker == Started(s.node)
    || worker.Copied?
    || worker.Failing?
    || (worker.Measured? && worker.next.freeSize == s.vg.vgFree / 1024)
  }

  ghost predicate Owes(s: State) {
    || s.changing != {} || s.undelivered != {} || s.notices != {}
    || s.node in s.q.dirty || s.node in s.q.waiting
    || s.cache != Some(s.store)
    || exists w :: 0 <= w < |s.workers| && WorkerOwes(s, s.workers[w])
  }

  /** Versions identify records, and a worker's copy is the cached one unless the key is or will be
      marked. */
  ghost predicate CopiesInv(s: State) {
    && s.store in s.history
    && (forall r | r in s.history :: r.version <= s.store.version && (r.version == s.store.version ==> r == s.store))
    && (s.cache.Some? ==> s.cache.value in s.history)
    && (forall w | 0 <= w < |s.workers| && (s.workers[w].Copied? || s.workers[w].Measured?) ::
          && s.workers[w].copy in s.history
          && s.cache.Some?
          && (s.workers[w].copy.version == s.cache.value.version || s.node in s.q.dirty || s.notices != {}))
  }

  ghost predicate Inv(s: State) {
    !s.q.shuttingDown && Controller.Inv(ControllerState(s)) && CopiesInv(s)
  }

  /** While a worker has a copy, nobody takes the node's key off the queue. */
  lemma HolderBlocksTheKey(s: State, w: nat)
    requires Controller.Inv(ControllerState(s)) && s.q.fifo != []
    requires w < |s.workers| && (s.workers[w].Copied? || s.workers[w].Measured?)
    ensures s.q.fifo[0] != s.node
  {
    assert ControllerState(s).workers[w] == Controller.Running(s.node);
    assert s.q.fifo[0] in s.q.fifo;
  }

  lemma StartKeepsCopies(s: State, w: nat)
    requires CopiesInv(s) && Controller.Inv(ControllerState(s)) && Enabled(s, Start(w))
    ensures CopiesInv(Apply(s, Start(w)))
  {
    var s' := Apply(s, Start(w));
    forall v | 0 <= v < |s'.workers| && (s'.workers[v].Copied? || s'.workers[v].Measured?)
      ensures s'.workers[v] == s.workers[v] && s.q.fifo[0] != s.node
    {
      HolderBlocksTheKey(s, v);
    }
  }

  lemma StepKeepsCopies(s: State, e: Event)
    requires CopiesInv(s) && Controller.Inv(ControllerState(s)) && !s.q.shuttingDown && Enabled(s, e)
    ensures CopiesInv(Apply(s, e))
  {
    if e.Start? {
      StartKeepsCopies(s, e.w);
    } else {
      hide Controller.Inv, Refreshed, WithKeys;
    }
  }

  /** A write leaves the record up to date, or the cache behind it, or the key marked, or an error
      that will requeue the key. */
  lemma WriteKeepsOwing(s: State, w: nat)
    requires CopiesInv(s) && Enabled(s, Write(w)) && (Agrees(s) || Owes(s))
    ensures Agrees(Apply(s, Write(w))) || Owes(Apply(s, Write(w)))
  {
    var s', copy, next := Apply(s, Write(w)), s.workers[w].copy, s.workers[w].next;
    if next != copy.status && copy.version != s.store.version {
      assert WorkerOwes(s', s'.workers[w]);
    } else if next == copy.status && !Agrees(s) {
      if v :| 0 <= v < |s.workers| && WorkerOwes(s, s.workers[v]) && v != w {
        assert WorkerOwes(s', s'.workers[v]);
      }
    }
  }

  lemma StepKeepsOwing(s: State, e: Event)
    requires CopiesInv(s) && !s.q.shuttingDown && Enabled(s, e) && !e.GroupUnreadable?
    requires Agrees(s) || Owes(s)
    ensures Agrees(Apply(s, e)) || Owes(Apply(s, e))
  {
    var s' := Apply(s, e);
    if e.Write? {
      WriteKeepsOwing(s, e.w);
    } else if (e.Start? && s.q.fifo[0] == s.node) || e.Measure?
              || (e.Copy? && s.workers[e.w].key == s.node && s.cache.Some?) {
      assert WorkerOwes(s', s'.workers[e.w]);
    } else if v :| 0 <= v < |s.workers| && WorkerOwes(s, s.workers[v]) {
      assert s'.workers[v] != s.workers[v] || WorkerOwes(s', s'.workers[v]) || e.ChangeGroup?;
    }
  }

  lemma StepKeepsInv(s: State, e: Event)
    requires Inv(s) && Enabled(s, e)
    ensures Inv(Apply(s, e))
  {
    AgentRefinesController(s, e);
    StepKeepsCopies(s, e);
    if ControllerEvent(s, e).Some? {
      Controller.StepKeepsInv(ControllerState(s), ControllerEvent(s, e).value);
    }
  }

  // -------------------------------------------------------------- whole runs

  ghost predicate IsRun(run: seq<State>, events: seq<Event>) {
    && |run| == |events| + 1
    && Initial(run[0])
    && forall i | 0 <= i < |events| :: Enabled(run[i], events[i]) && run[i + 1] == Apply(run[i], events[i])
  }

  lemma {:induction false} RunKeepsInv(run: seq<State>, events: seq<Event>, i: nat)
    requires IsRun(run, events) && i < |run|
    ensures Inv(run[i])
  {
    if i > 0 {
      RunKeepsInv(run, events, i - 1);
      StepKeepsInv(run[i - 1], events[i - 1]);
    }
  }

  /** A worker starts on the node's key. */
  predicate TakesNodeKey(s: State, e: Event) {
    e.Start? && Enabled(s, e) && s.q.fifo[0] == s.node
  }

  /** From the beginning of the run, or from a start on the node's key, and as long as the group can be
      read, the record agrees or something still owes a reconcile. */
  lemma {:induction false} AgreesOrOwes(run: seq<State>, events: seq<Event>, j: nat, i: nat)
    requires IsRun(run, events) && j <= i < |run|
    requires j == 0 || (j < i && TakesNodeKey(run[j], events[j]))
    requires forall m | j <= m < i :: !events[m].GroupUnreadable?
    ensures Agrees(run[i]) || Owes(run[i])
  {
    if j < i {
      var s, e := run[i - 1], events[i - 1];
      RunKeepsInv(run, events, i - 1);
      if i - 1 == j && j > 0 {
        assert WorkerOwes(run[i], run[i].workers[e.w]);
      } else {
        AgreesOrOwes(run, events, j, i - 1);
        StepKeepsOwing(s, e);
      }
    }
  }

  /** Publishes and collections are done, events are delivered, and the node's key is neither queued
      nor waiting nor held. */
  ghost predicate Quiescent(s: State) {
    && s.changing == {} && s.undelivered == {} && s.notices == {} && s.cache == Some(s.store)
    && s.node !in s.q.dirty && s.node !in s.q.waiting
    && forall w | 0 <= w < |s.workers| :: !Controller.Holds(ControllerWorker(s.workers[w], s.node), s.node)
  }

  /** Whenever the node comes to rest, the stored free size is the group's, rounded down to GiB, if the
      group could be read since some worker last started on the node's key, or since the beginning. */
  lemma QuiescentAgreement(run: seq<State>, events: seq<Event>, j: nat, i: nat)
    requires IsRun(run, events) && j <= i < |run| && Quiescent(run[i])
    requires j == 0 || (j < i && TakesNodeKey(run[j], events[j]))
    requires forall m | j <= m < i :: !events[m].GroupUnreadable?
    ensures run[i].store.status.freeSize == run[i].vg.vgFree / 1024
  {
    AgreesOrOwes(run, events, j, i);
  }

  lemma Extend(run: seq<State>, events: seq<Event>, e: Event, s': State)
    requires IsRun(run, events) && Enabled(run[|events|], e) && s' == Apply(run[|events|], e)
    ensures IsRun(run + [s'], events + [e])
  {
    hide Enabled, Apply, Initial;
  }

  /** The group has to be readable: the reconcile that cannot read it ends without an error, nothing
      is requeued, and the node comes to rest with a record that says nothing is free. */
  lemma UnreadableGroupIsNotRetried(node: Key) returns (run: seq<State>, events: seq<Event>)
    ensures IsRun(run, events) && Quiescent(run[|run| - 1])
    ensures run[|run| - 1].store.status.freeSize != run[|run| - 1].vg.vgFree / 1024
  {
    hide IsRun;
    run, events := CopiedRun(node);
    var s := run[4];
    var t := s.(workers := [Finishing(node)]);
    Extend(run, events, GroupUnreadable(0), t);
    var u := t.(workers := [Idle], q := EmptyQueue());
    Extend(run + [t], events + [GroupUnreadable(0)], MarkDone(0), u);
    run, events := run + [t] + [u], events + [GroupUnreadable(0)] + [MarkDone(0)];
  }

  /** A new node whose first reconcile has copied the record. */
  lemma CopiedRun(node: Key) returns (run: seq<State>, events: seq<Event>)
    ensures IsRun(run, events) && |run| == 5 && |events| == 4
    ensures var r := Record(1, Status(0, 0, {}));
            run[4] == State(node, VGInfo(2048, 1024), r, {r}, Some(r), {}, {}, {},
                            Queue([], {}, {node}, {}, false), [Copied(r)])
  {
    var r := Record(1, Status(0, 0, {}));
    var s0 := State(node, VGInfo(2048, 1024), r, {r}, None, {}, {}, {}, EmptyQueue(), [Idle]);
    var s1 := s0.(cache := Some(r), notices := {1});
    var s2 := s1.(notices := {}, q := Queue([node], {node}, {}, {}, false));
    var s3 := s2.(workers := [Started(node)], q := Queue([], {}, {node}, {}, false));
    var s4 := s3.(workers := [Copied(r)]);
    assert Apply(s0, DeliverRecord(r)) == s1;
    assert Apply(s1, Notify(1)) == s2;
    assert Apply(s2, Start(0)) == s3;
    assert Apply(s3, Copy(0)) == s4;
    hide Apply, Enabled;
    run, events := [s0, s1, s2, s3, s4], [DeliverRecord(r), Notify(1), Start(0), Copy(0)];
  }
}
