/** One node's record under concurrent binds and agent syncs that read stale caches and write
    through the API server's version check. */
module Ledger {
  import opened Wrappers
  import opened Keys
  import opened Rounding
  import opened Scheduler
  import opened Volumes
  import opened LocalVolumes

  /** A call in flight. It works on a deep copy of the record its cache had, version included. */
  datatype Call =
    | Binding(pod: ObjectKey, keys: set<string>, copy: Record)
    | Stored(pod: ObjectKey, keys: set<string>)
    | Syncing(vg: VGInfo, volumes: seq<Volume>, bound: set<string>, copy: Record)

  /** `node` is the agent's; `history` is every record that was ever stored, and caches hold any of
      them. */
  datatype State = State(
    node: string, store: Option<Record>, history: set<Record>,
    schedulerCache: Option<Record>, agentCache: Option<Record>,
    calls: map<nat, Call>, boundPods: set<ObjectKey>)

  /** The keys a bind inserts are a parameter of the run. */
  datatype Event =
    | Register
    | DeliverToScheduler(r: Record)
    | DeliverToAgent(r: Record)
    | BindRead(call: nat, pod: ObjectKey, keys: set<string>)
    | BindWrite(call: nat)
    | PodBind(call: nat, succeeds: bool)
    | SyncRead(call: nat, vg: VGInfo, volumes: seq<Volume>)
    | SyncWrite(call: nat)

  predicate Enabled(s: State, e: Event) {
    match e
    case Register => s.store.None?
    case DeliverToScheduler(r) => r in s.history
    case DeliverToAgent(r) => r in s.history
    case BindRead(c, _, _) => c !in s.calls && s.schedulerCache.Some?
    case BindWrite(c) => c in s.calls && s.calls[c].Binding?
    case PodBind(c, _) => c in s.calls && s.calls[c].Stored?
    case SyncRead(c, _, _) => c !in s.calls && s.agentCache.Some?
    case SyncWrite(c) => c in s.calls && s.calls[c].Syncing?
  }

  /** What a write carries, and whether the version check lets it through. */
  function NewStatus(c: Call): Status
    requires !c.Stored?
  {
    match c
    case Binding(_, keys, copy) => WithKeys(copy.status, keys)
    case Syncing(vg, _, bound, copy) => Refreshed(copy.status, vg, bound)
  }

  predicate Accepted(s: State, c: Call)
    requires !c.Stored?
  {
    s.store.Some? && s.store.value.version == c.copy.version
  }

  function Write(s: State, c: Call): State
    requires !c.Stored?
  {
    if Accepted(s, c) then
      var r := Record(c.copy.version + 1, NewStatus(c));
      s.(store := Some(r), history := s.history + {r})
    else s
  }

  function Apply(s: State, e: Event): State
    requires Enabled(s, e)
  {
    match e
    case Register =>
      var r := Record(1, Status(0, 0, {}));
      s.(store := Some(r), history := s.history + {r})
    case DeliverToScheduler(r) => s.(schedulerCache := Some(r))
    case DeliverToAgent(r) => s.(agentCache := Some(r))
    case BindRead(c, pod, keys) => s.(calls := s.calls[c := Binding(pod, keys, s.schedulerCache.value)])
    case BindWrite(c) =>
      var call := s.calls[c];
      Write(s, call).(calls := if Accepted(s, call) then s.calls[c := Stored(call.pod, call.keys)] else s.calls - {c})
    case PodBind(c, succeeds) =>
      s.(calls := s.calls - {c}, boundPods := s.boundPods + if succeeds then {s.calls[c].pod} else {})
    case SyncRead(c, vg, volumes) =>
      var bound, copy := BoundKeys(volumes, s.node), s.agentCache.value;
      if Refreshed(copy.status, vg, bound) == copy.status then s
      else s.(calls := s.calls[c := Syncing(vg, volumes, bound, copy)])
    case SyncWrite(c) => Write(s, s.calls[c]).(calls := s.calls - {c})
  }

  predicate Initial(s: State) {
    s == State(s.node, None, {}, None, None, map[], {})
  }

  ghost predicate IsRun(run: seq<State>, events: seq<Event>) {
    && |run| == |events| + 1
    && Initial(run[0])
    && forall i | 0 <= i < |events| :: Enabled(run[i], events[i]) && run[i + 1] == Apply(run[i], events[i])
  }

  // ------------------------------------------------ versions identify records

  ghost predicate Inv(s: State) {
    && (s.store.None? ==> s.history == {})
    && (s.store.Some? ==> s.store.value in s.history)
    && (forall r | r in s.history ::
          && r.version <= s.store.value.version
          && (r.version == s.store.value.version ==> r == s.store.value))
    && (s.schedulerCache.Some? ==> s.schedulerCache.value in s.history)
    && (s.agentCache.Some? ==> s.agentCache.value in s.history)
    && (forall c | c in s.calls && !s.calls[c].Stored? :: s.calls[c].copy in s.history)
  }

  lemma WriteKeepsInv(s: State, c: Call)
    requires Inv(s) && !c.Stored? && c.copy in s.history
    ensures Inv(Write(s, c))
  {
    hide WithKeys, Refreshed;
  }

  lemma StepKeepsInv(s: State, e: Event)
    requires Inv(s) && Enabled(s, e)
    ensures Inv(Apply(s, e))
  {
    if e.BindWrite? || e.SyncWrite? {
      WriteKeepsInv(s, s.calls[e.call]);
      hide Write;
    }
  }

  lemma {:induction false} RunKeepsInv(run: seq<State>, events: seq<Event>, i: nat)
    requires IsRun(run, events) && i < |run|
    ensures Inv(run[i])
  {
    if i > 0 {
      RunKeepsInv(run, events, i - 1);
      StepKeepsInv(run[i - 1], events[i - 1]);
    }
  }

  /** Optimistic concurrency makes each accepted write atomic: although it was computed from a
      cached copy, that copy is what is stored at that moment, and so whatever was decided on the
      copy, a filter's verdict for one, holds of the stored record. */
  lemma AcceptedWriteIsAtomic(s: State, c: Call)
    requires Inv(s) && !c.Stored? && c.copy in s.history && Accepted(s, c)
    ensures c.copy == s.store.value
    ensures Write(s, c).store == Some(Record(s.store.value.version + 1, NewStatus(c.(copy := s.store.value))))
  {
  }

  // ------------------------------------------- no reservation is overwritten

  function Reservations(s: State): set<string> {
    if s.store.Some? then s.store.value.status.preAllocated else {}
  }

  /** The step is an agent write that went through and whose volumes show the claim of `k` bound. */
  predicate Prunes(s: State, e: Event, k: string) {
    && e.SyncWrite? && Enabled(s, e)
    && Accepted(s, s.calls[e.call])
    && k in s.calls[e.call].bound
  }

  lemma StepKeepsKey(s: State, e: Event, k: string)
    requires Inv(s) && Enabled(s, e) && k in Reservations(s) && !Prunes(s, e, k)
    ensures k in Reservations(Apply(s, e))
  {
    if e.BindWrite? || e.SyncWrite? {
      var c := s.calls[e.call];
      if Accepted(s, c) {
        AcceptedWriteIsAtomic(s, c);
      }
    }
  }

  lemma {:induction false} StaysUnlessPruned(run: seq<State>, events: seq<Event>, i: nat, j: nat, k: string)
    requires IsRun(run, events) && i <= j < |run| && k in Reservations(run[i])
    ensures k in Reservations(run[j]) || exists m :: i <= m < j && Prunes(run[m], events[m], k)
  {
    if i < j {
      StaysUnlessPruned(run, events, i, j - 1, k);
      if k in Reservations(run[j - 1]) {
        RunKeepsInv(run, events, j - 1);
        if !Prunes(run[j - 1], events[j - 1], k) {
          StepKeepsKey(run[j - 1], events[j - 1], k);
        }
      }
    }
  }

  /** Where a call in flight began: its read, and the node it read for. */
  predicate Read(s: State, e: Event, c: nat, call: Call) {
    && e.SyncRead? && e.call == c && Enabled(s, e)
    && call.Syncing? && call.volumes == e.volumes && call.bound == BoundKeys(e.volumes, s.node)
  }

  lemma {:induction false} SyncingCallsRead(run: seq<State>, events: seq<Event>, j: nat, c: nat)
    requires IsRun(run, events) && j < |run| && c in run[j].calls && run[j].calls[c].Syncing?
    ensures exists r :: 0 <= r < j && Read(run[r], events[r], c, run[j].calls[c])
  {
    if j > 0 {
      var s, e := run[j - 1], events[j - 1];
      if c in s.calls && s.calls[c] == run[j].calls[c] {
        SyncingCallsRead(run, events, j - 1, c);
      } else {
        assert Read(s, e, c, run[j].calls[c]);
      }
    }
  }

  lemma {:induction false} NodeIsFixed(run: seq<State>, events: seq<Event>, j: nat)
    requires IsRun(run, events) && j < |run|
    ensures run[j].node == run[0].node
  {
    if j > 0 {
      NodeIsFixed(run, events, j - 1);
    }
  }

  /** Step `r` is the read, and step `m` the accepted write, of one sync whose list shows the claim of
      `k` bound to volume `n` on this node. */
  predicate PrunedBy(run: seq<State>, events: seq<Event>, r: int, m: int, n: int, k: string)
    requires |run| == |events| + 1
  {
    && 0 <= r < m < |events| && events[r].SyncRead? && events[m].SyncWrite? && events[r].call == events[m].call
    && Prunes(run[m], events[m], k) && run[m].calls[events[m].call].volumes == events[r].volumes
    && 0 <= n < |events[r].volumes| && ShowsBound(events[r].volumes[n], run[0].node, k)
  }

  /** For any inserted keys: a stored reservation stays until an agent write that was accepted and whose
      own list showed a volume bound to that claim on this node. */
  lemma KeyStaysUntilPruned(run: seq<State>, events: seq<Event>, i: nat, j: nat, k: string)
    requires IsRun(run, events) && i <= j < |run| && k in Reservations(run[i])
    ensures k in Reservations(run[j]) || exists r, m, n :: i <= m < j && PrunedBy(run, events, r, m, n, k)
  {
    StaysUnlessPruned(run, events, i, j, k);
    if k !in Reservations(run[j]) {
      var m :| i <= m < j && Prunes(run[m], events[m], k);
      var c := events[m].call;
      SyncingCallsRead(run, events, m, c);
      var r :| 0 <= r < m && Read(run[r], events[r], c, run[m].calls[c]);
      NodeIsFixed(run, events, r);
      var n :| 0 <= n < |events[r].volumes| && ShowsBound(events[r].volumes[n], run[0].node, k);
      assert PrunedBy(run, events, r, m, n, k);
    }
  }

  /** An accepted agent write leaves no reservation of a claim that its own list showed bound on this
      node, and every other one. */
  lemma PruningIsComplete(run: seq<State>, events: seq<Event>, m: nat) returns (r: nat)
    requires IsRun(run, events) && m < |events| && events[m].SyncWrite? && Accepted(run[m], run[m].calls[events[m].call])
    ensures r < m && events[r].SyncRead? && events[r].call == events[m].call
    ensures run[m].calls[events[m].call].volumes == events[r].volumes
    ensures forall k :: k in Reservations(run[m + 1]) <==>
              && k in Reservations(run[m])
              && !exists n :: 0 <= n < |events[r].volumes| && ShowsBound(events[r].volumes[n], run[0].node, k)
  {
    var c := events[m].call;
    SyncingCallsRead(run, events, m, c);
    r :| 0 <= r < m && Read(run[r], events[r], c, run[m].calls[c]);
    NodeIsFixed(run, events, r);
    RunKeepsInv(run, events, m);
    AcceptedWriteIsAtomic(run[m], run[m].calls[c]);
    var bound := run[m].calls[c].bound;
    assert Reservations(run[m + 1]) == Reservations(run[m]) - bound;
    hide BoundKeys, ShowsBound, IsRun;
    forall k ensures k in bound <==> exists n :: 0 <= n < |events[r].volumes| && ShowsBound(events[r].volumes[n], run[0].node, k) {
      BoundKeysExactly(events[r].volumes, run[0].node, k);
    }
  }

  /** The step is the accepted write of this bind call, for this pod and these keys. */
  predicate Reserves(s: State, e: Event, call: nat, pod: ObjectKey, keys: set<string>) {
    && e == BindWrite(call) && Enabled(s, e)
    && s.calls[call].pod == pod && s.calls[call].keys == keys
    && Accepted(s, s.calls[call])
  }

  /** A call that has stored its keys did so in a step of its own, and has not changed since. */
  lemma {:induction false} StoredCallsReserved(run: seq<State>, events: seq<Event>, j: nat, c: nat) returns (m: nat)
    requires IsRun(run, events) && j < |run|
    requires c in run[j].calls && run[j].calls[c].Stored?
    ensures m < j && Reserves(run[m], events[m], c, run[j].calls[c].pod, run[j].calls[c].keys)
    ensures run[j].calls[c].keys <= Reservations(run[m + 1])
    ensures forall n | m < n <= j :: c in run[n].calls && run[n].calls[c] == run[j].calls[c]
  {
    var s, e := run[j - 1], events[j - 1];
    if c in s.calls && s.calls[c] == run[j].calls[c] {
      m := StoredCallsReserved(run, events, j - 1, c);
    } else {
      m := j - 1;
    }
  }

  /** The step binds the pod, for a call that has stored these keys. */
  predicate Binds(s: State, e: Event, pod: ObjectKey, keys: set<string>) {
    e.PodBind? && e.succeeds && Enabled(s, e) && s.calls[e.call] == Stored(pod, keys)
  }

  lemma {:induction false} BoundPodsWereBound(run: seq<State>, events: seq<Event>, j: nat, pod: ObjectKey)
    returns (p: nat)
    requires IsRun(run, events) && j < |run| && pod in run[j].boundPods
    ensures p < j && events[p].PodBind? && events[p].call in run[p].calls
    ensures run[p].calls[events[p].call].Stored? && Binds(run[p], events[p], pod, run[p].calls[events[p].call].keys)
  {
    if pod in run[j - 1].boundPods {
      p := BoundPodsWereBound(run, events, j - 1, pod);
    } else {
      p := j - 1;
    }
  }

  /** A pod is bound only by a call that stored all of its keys before, in its own accepted write. */
  lemma PodBoundAfterReservation(run: seq<State>, events: seq<Event>, j: nat, pod: ObjectKey)
    returns (m: nat, p: nat, keys: set<string>)
    requires IsRun(run, events) && j < |run| && pod in run[j].boundPods
    ensures m < p < j && Binds(run[p], events[p], pod, keys)
    ensures Reserves(run[m], events[m], events[p].call, pod, keys) && keys <= Reservations(run[m + 1])
    ensures forall n | m < n <= p :: events[p].call in run[n].calls && run[n].calls[events[p].call] == Stored(pod, keys)
  {
    p := BoundPodsWereBound(run, events, j, pod);
    var c := events[p].call;
    keys := run[p].calls[c].keys;
    m := StoredCallsReserved(run, events, p, c);
  }

  // ------------------------------------------------------ the code as written

  /** Every bind inserts what the loop over the values of the name map inserts. */
  ghost predicate AsWritten(events: seq<Event>) {
    forall i | 0 <= i < |events| && events[i].BindRead? ::
      exists view, pod :: events[i].keys == BindKeys(MapValues, view, pod)
  }

  lemma {:induction false} AsWrittenHistory(run: seq<State>, events: seq<Event>, i: nat)
    requires IsRun(run, events) && AsWritten(events) && i < |run|
    ensures forall r | r in run[i].history :: r.status.preAllocated <= {""}
    ensures forall c | c in run[i].calls && run[i].calls[c].Binding? :: run[i].calls[c].keys <= {""}
    ensures forall c | c in run[i].calls && run[i].calls[c].Syncing? :: "" !in run[i].calls[c].bound
  {
    if i > 0 {
      AsWrittenHistory(run, events, i - 1);
      RunKeepsInv(run, events, i - 1);
      var e := events[i - 1];
      if e.SyncRead? {
        BoundKeysHoldASlash(e.volumes, run[i - 1].node);
      }
    }
  }

  /** The ledger of the code as written stays within the empty key, which no agent write ever
      removes, and the scheduler's free size is always the recorded one, without wrap-around. */
  lemma AsWrittenLedger(run: seq<State>, events: seq<Event>, i: nat, j: nat, view: View)
    requires IsRun(run, events) && AsWritten(events) && i <= j < |run|
    requires ValidView(view) && run[j].store.Some? && run[j].store.value.status.freeSize < TWO64
    ensures Reservations(run[j]) <= {""}
    ensures "" in Reservations(run[i]) ==> "" in Reservations(run[j])
    ensures var status := run[j].store.value.status;
            NodeFreeSize(view, status.freeSize, status.preAllocated) == status.freeSize
  {
    AsWrittenHistory(run, events, j);
    RunKeepsInv(run, events, j);
    if "" in Reservations(run[i]) {
      StaysUnlessPruned(run, events, i, j, "");
      forall m | i <= m < j ensures !Prunes(run[m], events[m], "") {
        AsWrittenHistory(run, events, m);
      }
    }
    EmptyKeysReserveNothing(view, Reservations(run[j]));
  }

  lemma EmptyKeysReserveNothing(view: View, ledger: set<string>)
    requires ValidView(view) && ledger <= {""}
    ensures Reserved(view, ledger) == 0
  {
    OtherKeysSplitToNothing("");
    assert KeySize(view, "") == 0;
    assert Sizes(view, {}) == map[];
    ReservedInsert(view, {}, "");
    assert ledger == {} || ledger == {} + {""};
  }

  // ------------------------------------------------------------------- a run

  /** A bound pod stays bound, and a successful bind binds its pod. */
  lemma {:induction false} BindsForGood(run: seq<State>, events: seq<Event>, p: nat, j: nat, pod: ObjectKey, keys: set<string>)
    requires IsRun(run, events) && p < j < |run| && Binds(run[p], events[p], pod, keys)
    ensures pod in run[j].boundPods
  {
    if p < j - 1 {
      BindsForGood(run, events, p, j - 1, pod, keys);
    }
  }

  const VG := VGInfo(2048, 1024)
  const HERE := Volume(Some(NodeAffinity(Some([Term([Expression(TOPOLOGY_NODE_KEY, ["n"])])]))), Bound, ("d", "a"))

  lemma ListedHere()
    ensures BoundKeys([HERE], "n") == {MakePVCKey("d", "a")} && BoundKeys([], "n") == {}
  {
    assert IsPVInMyNode(HERE, "n");
    assert [HERE][0] == HERE;
  }

  lemma Extend(run: seq<State>, events: seq<Event>, e: Event, s': State)
    requires IsRun(run, events) && Enabled(run[|events|], e) && s' == Apply(run[|events|], e)
    ensures IsRun(run + [s'], events + [e]) && |run + [s']| == |events + [e]| + 1
  {
    hide Enabled, Apply;
  }

  /** A sync reads before a bind writes, so its write is rejected; the pod is bound; the next sync sees the
      claim bound, and prunes its key. */
  lemma BindAndSync() returns (run: seq<State>, events: seq<Event>)
    ensures IsRun(run, events) && |run| == 12 && |events| == 11
    ensures events[5] == BindWrite(0) && MakePVCKey("d", "a") in Reservations(run[6])
    ensures events[6] == SyncWrite(1) && run[7].store == run[6].store
    ensures ("d", "p") in run[11].boundPods
    ensures events[10] == SyncWrite(1) && run[11].store == Some(Record(3, Status(2, 1, {})))
  {
    hide IsRun, BoundKeys, MakePVCKey;
    run, events := BindRun();
    ListedHere();
    var key := MakePVCKey("d", "a");
    var r2, r3 := Record(2, Status(0, 0, {key})), Record(3, Status(2, 1, {}));
    var s := run[8];
    var t := s.(agentCache := Some(r2));
    Extend(run, events, DeliverToAgent(r2), t);
    run, events := run + [t], events + [DeliverToAgent(r2)];
    assert {key} - {key} == {};
    assert Refreshed(r2.status, VG, {key}) == r3.status;
    var u := t.(calls := map[1 := Syncing(VG, [HERE], {key}, r2)]);
    Extend(run, events, SyncRead(1, VG, [HERE]), u);
    run, events := run + [u], events + [SyncRead(1, VG, [HERE])];
    var v := u.(store := Some(r3), history := u.history + {r3}, calls := map[]);
    Extend(run, events, SyncWrite(1), v);
    run, events := run + [v], events + [SyncWrite(1)];
  }

  /** The run up to the bound pod. */
  lemma BindRun() returns (run: seq<State>, events: seq<Event>)
    ensures IsRun(run, events) && |run| == 9 && |events| == 8
    ensures events[5] == BindWrite(0) && MakePVCKey("d", "a") in Reservations(run[6])
    ensures events[6] == SyncWrite(1) && run[7].store == run[6].store
    ensures var key, r1 := MakePVCKey("d", "a"), Record(1, Status(0, 0, {}));
            var r2 := Record(2, Status(0, 0, {key}));
            run[8] == State("n", Some(r2), {r1, r2}, Some(r1), Some(r1), map[], {("d", "p")})
  {
    hide IsRun, BoundKeys, MakePVCKey, Refreshed;
    var key, r1 := MakePVCKey("d", "a"), Record(1, Status(0, 0, {}));
    var r2 := Record(2, Status(0, 0, {key}));
    run, events := ReadRun(key);
    var s := run[5];
    var bind, sync := Stored(("d", "p"), {key}), Syncing(VG, [], {}, r1);
    assert {} + {key} == {key};
    var t := s.(store := Some(r2), history := {r1, r2}, calls := map[0 := bind, 1 := sync]);
    Extend(run, events, BindWrite(0), t);
    run, events := run + [t], events + [BindWrite(0)];
    var u := t.(calls := map[0 := bind]);
    Extend(run, events, SyncWrite(1), u);
    run, events := run + [u], events + [SyncWrite(1)];
    var v := u.(calls := map[], boundPods := {("d", "p")});
    Extend(run, events, PodBind(0, true), v);
    run, events := run + [v], events + [PodBind(0, true)];
  }

  /** The run up to the two reads. */
  lemma ReadRun(key: string) returns (run: seq<State>, events: seq<Event>)
    ensures IsRun(run, events) && |run| == 6 && |events| == 5
    ensures var r1 := Record(1, Status(0, 0, {}));
            run[5] == State("n", Some(r1), {r1}, Some(r1), Some(r1),
                            map[0 := Binding(("d", "p"), {key}, r1), 1 := Syncing(VG, [], {}, r1)], {})
  {
    ListedHere();
    hide BoundKeys, MakePVCKey;
    var r1 := Record(1, Status(0, 0, {}));
    var bind, sync := Binding(("d", "p"), {key}, r1), Syncing(VG, [], {}, r1);
    var s0 := State("n", None, {}, None, None, map[], {});
    var s1 := s0.(store := Some(r1), history := {r1});
    var s2 := s1.(schedulerCache := Some(r1));
    var s3 := s2.(agentCache := Some(r1));
    var s4 := s3.(calls := map[0 := bind]);
    var s5 := s4.(calls := map[0 := bind, 1 := sync]);
    assert Apply(s0, Register) == s1;
    assert Apply(s1, DeliverToScheduler(r1)) == s2 && Apply(s2, DeliverToAgent(r1)) == s3;
    assert Apply(s3, BindRead(0, ("d", "p"), {key})) == s4;
    assert Refreshed(r1.status, VG, {}).freeSize == 1;
    assert Apply(s4, SyncRead(1, VG, [])) == s5;
    hide Apply, Enabled, Refreshed;
    run := [s0, s1, s2, s3, s4, s5];
    events := [Register, DeliverToScheduler(r1), DeliverToAgent(r1), BindRead(0, ("d", "p"), {key}), SyncRead(1, VG, [])];
  }
}
