/** Left alone, a node comes to rest. Nobody changes the group, binds a pod or enqueues a key any more, and
    the agent goes on with what it has to do. */
module Rest {
  import opened Wrappers
  import opened LocalVolumes
  import opened Queues
  import opened Quiescence
  import Controller

  /** Publishes and collections finish, events arrive, and the workers work. Whoever copies the record of
      this node finds the cache up to date, and the list of bound claims stays the same. */
  ghost predicate Quiet(s: State, e: Event, bound: set<string>) {
    Enabled(s, e) &&
    match e
    case ChangeGroup(_, _) => false
    case Reserve(_) => false
    case Enqueue(_) => false
    case GroupUnreadable(_) => false
    case Copy(w) => s.workers[w].key == s.node ==> s.cache == Some(s.store)
    case Measure(_, b) => b == bound
    case _ => true
  }

  ghost predicate QuietRun(run: seq<State>, events: seq<Event>, bound: set<string>) {
    && |run| == |events| + 1
    && forall i | 0 <= i < |events| :: Quiet(run[i], events[i], bound) && run[i + 1] == Apply(run[i], events[i])
  }

  // --------------------------------------------------------------- the measure

  /** What each thing to be done costs: a marked key a start, a copy, a measurement, a write and a done; a
      key that waits one event more; and so on. */
  const MARK := 5
  const WAIT := 6
  const NOTICE := 6
  const UNDELIVERED := 6
  const CHANGING := 7
  const BEHIND := 7
  const UNSETTLED := 7

  predicate Settled(s: State, status: Status, bound: set<string>) {
    Refreshed(status, s.vg, bound) == status
  }

  /** A worker with an old copy may fail once more; one with an old measurement may write it. */
  function Cost(s: State, worker: Worker, bound: set<string>): nat {
    match worker
    case Idle => 0
    case Finishing(_) => 1
    case Started(_) => 4
    case Failing => WAIT + 2
    case Copied(copy) => if copy.version == s.store.version then 3 else WAIT + 4
    case Measured(copy, next) =>
      if copy.version != s.store.version then WAIT + 3
      else if next == copy.status || next == Refreshed(s.store.status, s.vg, bound) then 2
      else 2 + BEHIND + UNSETTLED
  }

  function Costs(s: State, bound: set<string>): (costs: seq<nat>)
    ensures |costs| == |s.workers|
    ensures forall w | 0 <= w < |costs| :: costs[w] == Cost(s, s.workers[w], bound)
  {
    seq(|s.workers|, w requires 0 <= w < |s.workers| => Cost(s, s.workers[w], bound))
  }

  function Total(costs: seq<nat>): nat {
    if costs == [] then 0 else costs[0] + Total(costs[1..])
  }

  /** How many versions the cache is behind. */
  function Lag(s: State): int {
    s.store.version - if s.cache.Some? then s.cache.value.version else -1
  }

  function Backlog(s: State): int {
    CHANGING * |s.changing| + UNDELIVERED * |s.undelivered| + NOTICE * |s.notices| + BEHIND * Lag(s)
    + WAIT * |s.q.waiting| + MARK * |s.q.dirty|
  }

  /** A bound on the events to come. */
  function ToDo(s: State, bound: set<string>): int {
    Backlog(s) + Total(Costs(s, bound)) + if Settled(s, s.store.status, bound) then 0 else UNSETTLED
  }

  lemma {:induction false} TotalUpdate(costs: seq<nat>, w: nat, cost: nat)
    requires w < |costs|
    ensures Total(costs[w := cost]) == Total(costs) - costs[w] + cost
  {
    if w == 0 {
      assert costs[w := cost][1..] == costs[1..];
    } else {
      TotalUpdate(costs[1..], w - 1, cost);
      assert costs[w := cost][1..] == costs[1..][w - 1 := cost];
    }
  }

  /** One worker moves and the others cost what they did. */
  lemma WorkerMoves(s: State, s': State, w: nat, bound: set<string>)
    requires w < |s.workers| == |s'.workers| && s'.workers == s.workers[w := s'.workers[w]]
    requires s'.store == s.store && s'.vg == s.vg
    ensures Total(Costs(s', bound))
            == Total(Costs(s, bound)) - Cost(s, s.workers[w], bound) + Cost(s, s'.workers[w], bound)
  {
    hide Cost;
    forall v | 0 <= v < |s.workers| ensures Cost(s', s'.workers[v], bound) == Cost(s, s'.workers[v], bound) {
      SameCost(s, s', s'.workers[v], bound);
    }
    assert Costs(s', bound) == Costs(s, bound)[w := Cost(s, s'.workers[w], bound)];
    TotalUpdate(Costs(s, bound), w, Cost(s, s'.workers[w], bound));
  }

  lemma SameCost(s: State, s': State, worker: Worker, bound: set<string>)
    requires s'.store == s.store && s'.vg == s.vg
    ensures Cost(s', worker, bound) == Cost(s, worker, bound)
  {
  }

  /** A copy of the stored version is the stored record. */
  lemma CurrentCopy(s: State, w: nat)
    requires CopiesInv(s) && w < |s.workers| && (s.workers[w].Copied? || s.workers[w].Measured?)
    ensures s.workers[w].copy.version == s.store.version ==> s.workers[w].copy == s.store
  {
  }

  // ------------------------------------------------------------ every step counts

  lemma SameWorkers(s: State, s': State, bound: set<string>)
    requires s'.workers == s.workers && s'.store == s.store && s'.vg == s.vg
    ensures Total(Costs(s', bound)) == Total(Costs(s, bound))
  {
    hide Cost;
    forall v | 0 <= v < |s.workers| ensures Cost(s', s.workers[v], bound) == Cost(s, s.workers[v], bound) {
      SameCost(s, s', s.workers[v], bound);
    }
    assert Costs(s', bound) == Costs(s, bound);
  }

  /** Events that move no worker. */
  lemma DeliveryCounts(s: State, e: Event, bound: set<string>)
    requires CopiesInv(s) && Quiet(s, e, bound) && !s.q.shuttingDown
    requires e.WriteVolume? || e.DeliverVolume? || e.DeliverRecord? || e.Notify? || e.DelayPassed?
    ensures ToDo(Apply(s, e), bound) < ToDo(s, bound)
  {
    hide Total, Costs, Refreshed, CopiesInv, Backlog;
    SameWorkers(s, Apply(s, e), bound);
    DeliveryShrinksBacklog(s, e);
  }

  lemma DeliveryShrinksBacklog(s: State, e: Event)
    requires Enabled(s, e) && !s.q.shuttingDown
    requires e.WriteVolume? || e.DeliverVolume? || e.DeliverRecord? || e.Notify? || e.DelayPassed?
    ensures Backlog(Apply(s, e)) < Backlog(s)
  {
    match e {
      case WriteVolume(op) => SetShrinks(s.changing, op); SetGrows(s.undelivered, op);
      case DeliverVolume(op) => SetShrinks(s.undelivered, op); SetGrows(s.q.dirty, s.node);
      case DeliverRecord(r) => SetGrows(s.notices, r.version);
      case Notify(version) => SetShrinks(s.notices, version); SetGrows(s.q.dirty, s.node);
      case DelayPassed(k) => SetShrinks(s.q.waiting, k); SetGrows(s.q.dirty, k);
    }
  }

  lemma SetShrinks<T>(items: set<T>, x: T)
    requires x in items
    ensures |items - {x}| == |items| - 1
  {
  }

  lemma SetGrows<T>(items: set<T>, x: T)
    ensures |items + {x}| == if x in items then |items| else |items| + 1
  {
    if x in items {
      assert items + {x} == items;
    }
  }

  lemma StartCounts(s: State, w: nat, bound: set<string>)
    requires Valid(s.q) && Quiet(s, Start(w), bound)
    ensures ToDo(Apply(s, Start(w)), bound) < ToDo(s, bound)
  {
    hide Total, Costs, Refreshed, Valid;
    TakeFacts(s.q);
    SetShrinks(s.q.dirty, s.q.fifo[0]);
    WorkerMoves(s, Apply(s, Start(w)), w, bound);
  }

  lemma CopyCounts(s: State, w: nat, bound: set<string>)
    requires Quiet(s, Copy(w), bound)
    ensures ToDo(Apply(s, Copy(w)), bound) < ToDo(s, bound)
  {
    hide Total, Costs, Refreshed;
    WorkerMoves(s, Apply(s, Copy(w)), w, bound);
  }

  lemma MeasureCounts(s: State, w: nat, bound: set<string>)
    requires CopiesInv(s) && Quiet(s, Measure(w, bound), bound)
    ensures ToDo(Apply(s, Measure(w, bound)), bound) < ToDo(s, bound)
  {
    hide Total, Costs, Refreshed, CopiesInv;
    CurrentCopy(s, w);
    WorkerMoves(s, Apply(s, Measure(w, bound)), w, bound);
  }

  lemma EndCounts(s: State, e: Event, bound: set<string>)
    requires Quiet(s, e, bound) && (e.HandleErr? || e.MarkDone?) && !s.q.shuttingDown
    ensures ToDo(Apply(s, e), bound) < ToDo(s, bound)
  {
    hide Total, Costs, Refreshed;
    SetGrows(s.q.waiting, s.node);
    WorkerMoves(s, Apply(s, e), e.w, bound);
  }

  /** A write that leaves the record: nothing to change, or a conflict. */
  lemma WriteCounts(s: State, w: nat, bound: set<string>)
    requires Quiet(s, Write(w), bound) && Apply(s, Write(w)).store == s.store
    ensures ToDo(Apply(s, Write(w)), bound) < ToDo(s, bound)
  {
    hide Total, Costs, Refreshed;
    WorkerMoves(s, Apply(s, Write(w)), w, bound);
  }

  /** While one worker writes, no other has a copy. */
  lemma OneCopy(s: State, v: nat, w: nat)
    requires Controller.Inv(ControllerState(s)) && v < |s.workers| && w < |s.workers| && v != w
    requires s.workers[w].Measured?
    ensures !s.workers[v].Copied? && !s.workers[v].Measured?
  {
    var c := ControllerState(s);
    assert Controller.Holds(c.workers[w], s.node);
    var h :| Controller.OnlyHolder(c, h, s.node);
    assert h == w && !Controller.Holds(c.workers[v], s.node);
  }

  lemma AcceptedWriteCosts(s: State, w: nat, bound: set<string>)
    requires Inv(s) && Quiet(s, Write(w), bound) && Apply(s, Write(w)).store != s.store
    ensures Total(Costs(Apply(s, Write(w)), bound)) == Total(Costs(s, bound)) - Cost(s, s.workers[w], bound) + 1
  {
    var s' := Apply(s, Write(w));
    forall v | 0 <= v < |s.workers| && v != w ensures Cost(s', s'.workers[v], bound) == Cost(s, s.workers[v], bound) {
      OneCopy(s, v, w);
    }
    hide Inv, Total, Refreshed;
    assert Costs(s', bound) == Costs(s, bound)[w := 1];
    TotalUpdate(Costs(s, bound), w, 1);
  }

  lemma AcceptedWriteCounts(s: State, w: nat, bound: set<string>)
    requires Inv(s) && Quiet(s, Write(w), bound) && Apply(s, Write(w)).store != s.store
    ensures ToDo(Apply(s, Write(w)), bound) < ToDo(s, bound)
  {
    AcceptedWriteCosts(s, w, bound);
    CurrentCopy(s, w);
    AgentFixpoint(s.store.status, s.vg, bound);
    hide Inv, Total, Costs, Refreshed;
  }

  lemma StepCounts(s: State, e: Event, bound: set<string>)
    requires Inv(s) && Quiet(s, e, bound)
    ensures ToDo(Apply(s, e), bound) < ToDo(s, bound)
  {
    hide ToDo, CopiesInv, Valid, Apply, Enabled;
    match e {
      case Start(w) => StartCounts(s, w, bound);
      case Copy(w) => CopyCounts(s, w, bound);
      case Measure(w, _) => MeasureCounts(s, w, bound);
      case HandleErr(_) => EndCounts(s, e, bound);
      case MarkDone(_) => EndCounts(s, e, bound);
      case Write(w) =>
        if Apply(s, e).store == s.store {
          WriteCounts(s, w, bound);
        } else {
          AcceptedWriteCounts(s, w, bound);
        }
      case _ => DeliveryCounts(s, e, bound);
    }
  }

  // -------------------------------------------------------------------- progress

  /** What a worker that is not idle can do next, once the cache is up to date. */
  function Next(s: State, w: nat, bound: set<string>): Event
    requires w < |s.workers|
  {
    match s.workers[w]
    case Idle => Start(w)
    case Started(_) => Copy(w)
    case Copied(_) => Measure(w, bound)
    case Measured(_, _) => Write(w)
    case Failing => HandleErr(w)
    case Finishing(_) => MarkDone(w)
  }

  lemma QueuedIfNotHeld(s: State)
    requires Inv(s) && s.node in s.q.dirty
    requires forall w | 0 <= w < |s.workers| :: !Controller.Holds(ControllerWorker(s.workers[w], s.node), s.node)
    ensures s.q.fifo != []
  {
    assert forall h :: !Controller.OnlyHolder(ControllerState(s), h, s.node);
    assert s.node in s.q.fifo;
  }

  /** Short of rest something quiet can happen. */
  lemma QuietProgress(s: State, bound: set<string>) returns (e: Event)
    requires Inv(s) && |s.workers| > 0 && !Quiescent(s)
    ensures Quiet(s, e, bound)
  {
    if s.changing != {} {
      var op :| op in s.changing;
      e := WriteVolume(op);
    } else if s.undelivered != {} {
      var op :| op in s.undelivered;
      e := DeliverVolume(op);
    } else if s.notices != {} {
      var version :| version in s.notices;
      e := Notify(version);
    } else if s.cache != Some(s.store) {
      e := DeliverRecord(s.store);
    } else if s.node in s.q.waiting {
      e := DelayPassed(s.node);
    } else if w :| 0 <= w < |s.workers| && Controller.Holds(ControllerWorker(s.workers[w], s.node), s.node) {
      e := Next(s, w, bound);
    } else {
      QueuedIfNotHeld(s);
      e := Next(s, 0, bound);
    }
  }

  // ------------------------------------------------------------------ whole runs

  lemma {:induction false} QuietRunKeeps(run: seq<State>, events: seq<Event>, bound: set<string>, n: nat)
    requires QuietRun(run, events, bound) && n < |run| && Inv(run[0]) && (Agrees(run[0]) || Owes(run[0]))
    ensures Inv(run[n]) && (Agrees(run[n]) || Owes(run[n])) && |run[n].workers| == |run[0].workers|
    ensures n + ToDo(run[n], bound) <= ToDo(run[0], bound)
  {
    hide ToDo, Inv, Agrees, Owes, Apply;
    if n > 0 {
      QuietRunKeeps(run, events, bound, n - 1);
      var s, e := run[n - 1], events[n - 1];
      StepKeepsInv(s, e);
      InvParts(s);
      StepKeepsOwing(s, e);
      StepCounts(s, e, bound);
      WorkersStay(s, e);
    }
  }

  lemma InvParts(s: State)
    requires Inv(s)
    ensures CopiesInv(s) && !s.q.shuttingDown
  {
  }

  lemma WorkersStay(s: State, e: Event)
    requires Enabled(s, e)
    ensures |Apply(s, e).workers| == |s.workers|
  {
  }

  lemma ToDoIsNatural(s: State, bound: set<string>)
    requires Inv(s)
    ensures ToDo(s, bound) >= 0
  {
    hide Total, Costs, Refreshed;
    assert Lag(s) >= 0;
  }

  /** With a worker: left alone, the node goes through at most `ToDo` more events, in whatever order; as
      long as it is not at rest one more is possible; and at rest the recorded free size is the
      group's. */
  lemma NodeComesToRest(run: seq<State>, events: seq<Event>, bound: set<string>)
    requires QuietRun(run, events, bound) && Inv(run[0]) && (Agrees(run[0]) || Owes(run[0])) && |run[0].workers| > 0
    ensures |events| <= ToDo(run[0], bound)
    ensures !Quiescent(run[|events|]) ==> exists e :: Quiet(run[|events|], e, bound)
    ensures Quiescent(run[|events|]) ==> run[|events|].store.status.freeSize == run[|events|].vg.vgFree / 1024
  {
    hide ToDo, Inv;
    QuietRunKeeps(run, events, bound, |events|);
    var s := run[|events|];
    ToDoIsNatural(s, bound);
    if !Quiescent(s) {
      var e := QuietProgress(s, bound);
    }
  }

  /** This holds after every run, if the group could be read since a start on the node's key or since the
      beginning. */
  lemma RestFollowsEveryRun(past: seq<State>, pastEvents: seq<Event>, j: nat,
                            run: seq<State>, events: seq<Event>, bound: set<string>)
    requires IsRun(past, pastEvents) && j <= |pastEvents| && |past[0].workers| > 0
    requires j == 0 || (j < |pastEvents| && TakesNodeKey(past[j], pastEvents[j]))
    requires forall m | j <= m < |pastEvents| :: !pastEvents[m].GroupUnreadable?
    requires QuietRun(run, events, bound) && run[0] == past[|pastEvents|]
    ensures |events| <= ToDo(run[0], bound)
    ensures !Quiescent(run[|events|]) ==> exists e :: Quiet(run[|events|], e, bound)
    ensures Quiescent(run[|events|]) ==> run[|events|].store.status.freeSize == run[|events|].vg.vgFree / 1024
  {
    hide ToDo, Inv, Agrees, Owes, Quiet, Quiescent;
    RunKeepsInv(past, pastEvents, |pastEvents|);
    AgreesOrOwes(past, pastEvents, j, |pastEvents|);
    RunKeepsWorkers(past, pastEvents, |pastEvents|);
    NodeComesToRest(run, events, bound);
  }

  /** So a carve or a collection reaches the record: whatever the agent was doing when the group changed, when
      the node has come to rest the record has the group's new free size. */
  lemma GroupChangeIsRecorded(s: State, op: string, vg: VGInfo, run: seq<State>, events: seq<Event>, bound: set<string>)
    requires Inv(s) && |s.workers| > 0 && Enabled(s, ChangeGroup(op, vg))
    requires QuietRun(run, events, bound) && run[0] == Apply(s, ChangeGroup(op, vg)) && Quiescent(run[|events|])
    ensures run[|events|].store.status.freeSize == vg.vgFree / 1024
  {
    assert op in run[0].changing;
    StepKeepsInv(s, ChangeGroup(op, vg));
    hide Inv, ToDo, Quiescent;
    NodeComesToRest(run, events, bound);
    QuietRunKeepsGroup(run, events, bound, |events|);
  }

  lemma {:induction false} QuietRunKeepsGroup(run: seq<State>, events: seq<Event>, bound: set<string>, n: nat)
    requires QuietRun(run, events, bound) && n < |run|
    ensures run[n].vg == run[0].vg
  {
    if n > 0 {
      QuietRunKeepsGroup(run, events, bound, n - 1);
    }
  }

  lemma {:induction false} RunKeepsWorkers(run: seq<State>, events: seq<Event>, n: nat)
    requires IsRun(run, events) && n < |run|
    ensures |run[n].workers| == |run[0].workers|
  {
    hide Apply;
    if n > 0 {
      RunKeepsWorkers(run, events, n - 1);
      WorkersStay(run[n - 1], events[n - 1]);
    }
  }

  // ------------------------------------------------------- a cache that stays behind

  const OLD := Record(1, Status(0, 0, {}))
  const NEW := Record(2, Status(2, 1, {}))

  /** One worker, a stored record, and a cache that has the record before. */
  function Behind(node: Key, worker: Worker, q: Queue): State {
    State(node, VGInfo(2048, 1024), NEW, {OLD, NEW}, Some(OLD), {}, {}, {}, q, [worker])
  }

  lemma ConflictSteps(node: Key, q: Queue)
    ensures var s0, s1 := Behind(node, Started(node), q), Behind(node, Copied(OLD), q);
            var s2, s3 := Behind(node, Measured(OLD, NEW.status), q), Behind(node, Failing, q);
            && Enabled(s0, Copy(0)) && Apply(s0, Copy(0)) == s1
            && Quiet(s1, Measure(0, {}), {}) && Apply(s1, Measure(0, {})) == s2
            && Quiet(s2, Write(0), {}) && Apply(s2, Write(0)) == s3
  {
    assert Refreshed(OLD.status, VGInfo(2048, 1024), {}) == NEW.status;
    hide Refreshed;
  }

  lemma RequeueSteps(node: Key)
    ensures var held := Queue([], {}, {node}, {}, false);
            var s3, s4 := Behind(node, Failing, held), Behind(node, Finishing(node), held.(waiting := {node}));
            && Quiet(s3, HandleErr(0), {}) && Apply(s3, HandleErr(0)) == s4
            && Quiet(s4, MarkDone(0), {})
            && Apply(s4, MarkDone(0)) == Behind(node, Idle, Queue([], {}, {}, {node}, false))
  {
    hide Refreshed;
  }

  lemma RetrySteps(node: Key)
    ensures var s5 := Behind(node, Idle, Queue([], {}, {}, {node}, false));
            var s6 := Behind(node, Idle, Queue([node], {node}, {}, {}, false));
            && Quiet(s5, DelayPassed(node), {}) && Apply(s5, DelayPassed(node)) == s6
            && Quiet(s6, Start(0), {})
            && Apply(s6, Start(0)) == Behind(node, Started(node), Queue([], {}, {node}, {}, false))
  {
    hide Refreshed;
  }

  /** The cache has to catch up: while it is behind, a worker whose write conflicts can go round for ever.
      Here seven events of the agent alone lead back to the same state; only the copy is not quiet. */
  lemma StaleCacheSpins(node: Key) returns (run: seq<State>, events: seq<Event>)
    ensures |run| == |events| + 1 && |events| == 7 && Inv(run[0])
    ensures forall i | 0 <= i < |events| :: Enabled(run[i], events[i]) && run[i + 1] == Apply(run[i], events[i])
    ensures forall i | 1 <= i < |events| :: Quiet(run[i], events[i], {})
    ensures run[|events|] == run[0]
  {
    hide Apply, Inv, Refreshed, Enabled;
    var held := Queue([], {}, {node}, {}, false);
    ConflictSteps(node, held);
    RequeueSteps(node);
    RetrySteps(node);
    var s0 := Behind(node, Started(node), held);
    StartedAlone(s0);
    run := [s0, Behind(node, Copied(OLD), held), Behind(node, Measured(OLD, NEW.status), held),
            Behind(node, Failing, held), Behind(node, Finishing(node), held.(waiting := {node})),
            Behind(node, Idle, Queue([], {}, {}, {node}, false)),
            Behind(node, Idle, Queue([node], {node}, {}, {}, false)), s0];
    events := [Copy(0), Measure(0, {}), Write(0), HandleErr(0), MarkDone(0), DelayPassed(node), Start(0)];
  }

  lemma StartedAlone(s: State)
    requires s.workers == [Started(s.node)] && s.q == Queue([], {}, {s.node}, {}, false) && CopiesInv(s)
    ensures Inv(s)
  {
    var c := ControllerState(s);
    assert Controller.OnlyHolder(c, 0, s.node);
  }
}
