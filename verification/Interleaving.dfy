/** The capacity runs with callers at their own pace. A pod passes the filter at one moment and its bind
    writes at a later one; the agent measures the group, lists the volumes from a cache and writes at
    three different moments. Any number of other steps happen in between. */
module Interleaving {
  import opened Wrappers
  import opened Keys
  import opened Sums
  import opened Rounding
  import opened Scheduler
  import opened LocalVolumes
  import Reservation

  /** A sync in flight: the version of its copy of the record, the measured group and, once it has
      listed the volumes, the claims it saw bound. */
  datatype SyncCall =
    | Measured(version: nat, vg: VGInfo)
    | Listed(version: nat, vg: VGInfo, bound: set<string>)

  /** `lists` holds every set of bound claims there ever was, and the agent's cache any of them. */
  datatype State = State(node: Reservation.State, version: nat, sync: Option<SyncCall>, lists: set<set<string>>)

  /** `Filter` is a pod passing the filter on the stored record. It changes nothing, and a bind does not
      depend on it: the record its filter looked at may have been any. */
  datatype Event =
    | NodeEvent(event: Reservation.Event)
    | Filter(pod: Pod)
    | Bind(pod: Pod)
    | Measure(version: nat)
    | List(bound: set<string>)
    | WriteBack
    | AgentDies

  /** What the code lets happen: a bind takes the record as it finds it, and the agent's copy may be of
      any version up to the stored one. */
  ghost predicate Possible(s: State, e: Event) {
    match e
    case NodeEvent(event) => !event.Sync? && !event.Schedule? && Reservation.Possible(s.node, event)
    case Filter(pod) => Reservation.Possible(s.node, Reservation.Schedule(pod))
    case Bind(_) => true
    case Measure(version) => version <= s.version
    case List(bound) => s.sync.Some? && s.sync.value.Measured? && bound in s.lists
    case WriteBack => s.sync.Some? && s.sync.value.Listed?
    case AgentDies => true
  }

  /** The sync in flight has copied the record as it is stored. */
  predicate Current(s: State) {
    s.sync.Some? && s.sync.value.version == s.version
  }

  predicate Pending(s: State) {
    Current(s) && s.sync.value.Listed?
  }

  /** The node once the pending write has gone through. */
  function PendingNode(s: State): Reservation.State
    requires Pending(s)
  {
    Reservation.Landed(s.node, s.sync.value.vg, s.sync.value.bound)
  }

  ghost function Admitted(mode: BindMode, node: Reservation.State, pod: Pod): Reservation.State {
    Reservation.Apply(mode, node, Reservation.Schedule(pod))
  }

  /** The pending write prunes none of the pod's claims before it is carved, or the bind voids it. */
  ghost predicate PendingSpares(s: State, pod: Pod) {
    Pending(s) && Admitted(ClaimKeys, s.node, pod).status == s.node.status ==>
      forall k | k in PodKeys(s.node.view, pod) && k in s.sync.value.bound :: Reservation.Carved(s.node, k)
  }

  /** The conditions under which each step is safe: what creating and deleting claims assume holds now and
      when the pending write has landed; there is room when a bind writes; a list that will be
      written lands well. */
  ghost predicate Assumed(s: State, e: Event) {
    match e
    case NodeEvent(event) =>
      Reservation.Assumed(s.node, event) && (Pending(s) ==> Reservation.Assumed(PendingNode(s), event))
    case Bind(pod) => Reservation.Room(s.node, pod) && PendingSpares(s, pod)
    case List(bound) => Current(s) ==> Reservation.Lands(s.node, s.sync.value.vg, bound)
    case _ => true
  }

  /** A write that changes the stored status changes its version. */
  function Bump(s: State, node: Reservation.State): State {
    s.(node := node, version := if node.status == s.node.status then s.version else s.version + 1)
  }

  ghost function Apply(mode: BindMode, s: State, e: Event): State
    requires Possible(s, e)
  {
    match e
    case NodeEvent(event) =>
      var node := Reservation.Apply(mode, s.node, event);
      s.(node := node, lists := s.lists + {node.boundTo.Keys})
    case Filter(_) => s
    case Bind(pod) => Bump(s, Admitted(mode, s.node, pod))
    case Measure(version) => s.(sync := Some(Measured(version, Reservation.Group(s.node))))
    case List(bound) => s.(sync := Some(Listed(s.sync.value.version, s.sync.value.vg, bound)))
    case WriteBack => (if Pending(s) then Bump(s, PendingNode(s)) else s).(sync := None)
    case AgentDies => s.(sync := None)
  }

  ghost predicate Initial(s: State) {
    Reservation.Initial(s.node) && s.sync == None && s.lists == {{}}
  }

  ghost predicate PossibleRun(mode: BindMode, run: seq<State>, events: seq<Event>) {
    && |run| == |events| + 1
    && Initial(run[0])
    && forall i | 0 <= i < |events| :: Possible(run[i], events[i]) && run[i + 1] == Apply(mode, run[i], events[i])
  }

  ghost predicate IsRun(run: seq<State>, events: seq<Event>) {
    PossibleRun(ClaimKeys, run, events) && forall i | 0 <= i < |events| :: Assumed(run[i], events[i])
  }

  // --------------------------------------------------------------- invariant

  /** The invariant of the capacity runs holds now, and will once a pending write has landed. */
  ghost predicate Inv(s: State) {
    && Reservation.Inv(s.node)
    && (s.sync.Some? ==> s.sync.value.version <= s.version && s.sync.value.vg.vgFree / 1024 < TWO64)
    && (Pending(s) ==> Reservation.Inv(PendingNode(s)))
  }

  // ------------------------------------------------- steps that leave the record

  /** Whatever leaves the record alone can happen before or after the pending write. */
  lemma PendingWriteCommutes(node: Reservation.State, e: Reservation.Event, vg: VGInfo, bound: set<string>)
    requires Reservation.Possible(node, e) && !e.Schedule? && !e.Sync?
    ensures Reservation.Apply(ClaimKeys, node, e).status == node.status
    ensures var landed := Reservation.Landed(node, vg, bound);
            && Reservation.Possible(landed, e)
            && Reservation.Apply(ClaimKeys, landed, e)
               == Reservation.Landed(Reservation.Apply(ClaimKeys, node, e), vg, bound)
  {
  }

  lemma NodeEventIsSafeExactlyWhenAssumed(s: State, e: Reservation.Event)
    requires Inv(s) && Possible(s, NodeEvent(e))
    ensures Inv(Apply(ClaimKeys, s, NodeEvent(e))) <==> Assumed(s, NodeEvent(e))
  {
    hide Reservation.Inv, Reservation.Possible, Reservation.Apply, Reservation.Assumed;
    Reservation.StepIsSafeExactlyWhenAssumed(s.node, e);
    if Pending(s) {
      PendingWriteCommutes(s.node, e, s.sync.value.vg, s.sync.value.bound);
      Reservation.StepIsSafeExactlyWhenAssumed(PendingNode(s), e);
    }
  }

  // ------------------------------------------------------ steps that write it

  /** A bind that finds all its keys in the ledger leaves the pending write in place. */
  lemma PendingBindIsSafeExactlyWhenSpared(s: State, pod: Pod)
    requires Pending(s) && Reservation.Inv(PendingNode(s)) && ValidView(s.node.view)
    requires Admitted(ClaimKeys, s.node, pod).status == s.node.status
    ensures Reservation.Inv(Reservation.Landed(Admitted(ClaimKeys, s.node, pod), s.sync.value.vg, s.sync.value.bound))
            <==> forall k | k in PodKeys(s.node.view, pod) && k in s.sync.value.bound :: Reservation.Carved(s.node, k)
  {
    var p, keys := PendingNode(s), PodKeys(s.node.view, pod);
    var p' := p.(admitted := p.admitted + keys);
    AdmitKeepsLinks(p, pod, p');
    AdmitKeepsBacked(p, p');
    forall k | k in keys ensures k in s.node.status.preAllocated {
      assert k in s.node.status.preAllocated + keys;
    }
    assert Reservation.Landed(Admitted(ClaimKeys, s.node, pod), s.sync.value.vg, s.sync.value.bound) == p';
    hide Reservation.Linked, Reservation.Backed, PodKeys;
    assert forall k | k in keys && k in s.sync.value.bound :: k !in p.status.preAllocated;
    assert forall k :: Reservation.Carved(p', k) <==> Reservation.Carved(s.node, k);
  }

  lemma AdmitKeepsLinks(p: Reservation.State, pod: Pod, p': Reservation.State)
    requires Reservation.Linked(p) && p' == p.(admitted := p.admitted + PodKeys(p.view, pod))
    ensures Reservation.Linked(p')
  {
    forall k | k in PodKeys(p.view, pod) ensures SplitPVCKey(k) in p.view.claims {
      Reservation.PodKeysNameClaims(p.view, pod, k);
    }
    hide ValidView, SplitPVCKey, CarvedBytes, PodKeys, SumMap;
  }

  lemma AdmitKeepsBacked(p: Reservation.State, p': Reservation.State)
    requires Reservation.Backed(p) && p' == p.(admitted := p'.admitted)
    ensures Reservation.Backed(p') && Reservation.CarvedLedger(p') == Reservation.CarvedLedger(p)
  {
    hide Reserved, SumMap;
    assert Reservation.CarvedLedger(p') == Reservation.CarvedLedger(p);
  }

  lemma BindIsSafeExactlyWhenAssumed(s: State, pod: Pod)
    requires Inv(s)
    ensures Inv(Apply(ClaimKeys, s, Bind(pod))) <==> Assumed(s, Bind(pod))
  {
    hide Reservation.Inv, Reservation.Room, Admitted, ValidView;
    Reservation.InvHasView(s.node);
    AdmitIsSafeExactlyWhenRoom(s.node, pod);
    if Pending(s) && Admitted(ClaimKeys, s.node, pod).status == s.node.status {
      PendingBindIsSafeExactlyWhenSpared(s, pod);
    }
  }

  lemma AdmitIsSafeExactlyWhenRoom(node: Reservation.State, pod: Pod)
    requires Reservation.Inv(node)
    ensures Reservation.Inv(Admitted(ClaimKeys, node, pod)) <==> Reservation.Room(node, pod)
  {
    hide Reservation.Inv, Reservation.Room, Reservation.Safe;
    Reservation.BindIsSafeExactlyWhenRoom(node, pod);
  }

  lemma MeasureKeepsInv(s: State, version: nat)
    requires Inv(s) && Possible(s, Measure(version))
    ensures Inv(Apply(ClaimKeys, s, Measure(version)))
    ensures Reservation.RestFits(s.node, Reservation.Group(s.node))
  {
    assert 0 <= Reservation.Free(s.node) < TWO63;
    Reservation.UncarvedFits(s.node);
    Reservation.GiBOfMiB(Reservation.Free(s.node));
    hide Reservation.Inv, Reserved;
  }

  lemma ListIsSafeExactlyWhenAssumed(s: State, bound: set<string>)
    requires Inv(s) && Possible(s, List(bound))
    ensures Inv(Apply(ClaimKeys, s, List(bound))) <==> Assumed(s, List(bound))
  {
    hide Reservation.Inv, Reservation.Lands;
    if Current(s) {
      Reservation.WriteIsSafeExactlyWhenItLands(s.node, s.sync.value.vg, bound);
    }
  }

  /** Every step, of whoever and whenever, keeps the invariant if and only if it meets its assumption. */
  lemma StepIsSafeExactlyWhenAssumed(s: State, e: Event)
    requires Inv(s) && Possible(s, e)
    ensures Inv(Apply(ClaimKeys, s, e)) <==> Assumed(s, e)
  {
    match e {
      case NodeEvent(event) => NodeEventIsSafeExactlyWhenAssumed(s, event);
      case Bind(pod) => BindIsSafeExactlyWhenAssumed(s, pod);
      case Measure(version) => MeasureKeepsInv(s, version);
      case List(bound) => ListIsSafeExactlyWhenAssumed(s, bound);
      case _ => hide Reservation.Inv;
    }
  }

  // ------------------------------------------------------------- whole runs

  lemma {:induction false} RunKeepsInv(run: seq<State>, events: seq<Event>, i: nat)
    requires IsRun(run, events) && i < |run|
    ensures Inv(run[i])
  {
    if i == 0 {
      Reservation.RunKeepsInv([run[0].node], [], 0);
    } else {
      hide Inv, Possible, Assumed, Apply, Initial;
      RunKeepsInv(run, events, i - 1);
      StepIsSafeExactlyWhenAssumed(run[i - 1], events[i - 1]);
    }
  }

  /** Reservation safety with every caller at its own pace: the reservations never exceed the recorded
      free size, the scheduler's subtraction never wraps around, and the volumes still due to all
      admitted claims fit the real free space together. */
  lemma InterleavedSafety(run: seq<State>, events: seq<Event>, i: nat)
    requires IsRun(run, events) && i < |run|
    ensures Reservation.Safe(run[i].node)
  {
    hide IsRun;
    RunKeepsInv(run, events, i);
    Reservation.InvIsSafe(run[i].node);
  }

  // -------------------------------------------------- from measuring to listing

  /** What is reserved and not carved only shrinks. */
  lemma RestShrinks(node: Reservation.State, e: Reservation.Event)
    requires Reservation.Inv(node) && Reservation.Possible(node, e) && !e.Schedule? && !e.Sync?
    requires e.CreateClaim? ==> Reservation.KeyOf(e.id) !in node.status.preAllocated
    ensures var node', ledger := Reservation.Apply(ClaimKeys, node, e), node.status.preAllocated;
            Reserved(node'.view, ledger - Reservation.CarvedLedger(node').Keys)
            <= Reserved(node.view, ledger - Reservation.CarvedLedger(node).Keys)
  {
    var node', ledger := Reservation.Apply(ClaimKeys, node, e), node.status.preAllocated;
    hide Reservation.Inv, Reserved, Reservation.CarvedLedger, Reservation.Apply;
    if e.DeleteClaim? {
      DeleteShrinksRest(node, e.id);
    } else if e.CreateClaim? {
      CreateKeepsRest(node, e.id, e.claim);
    } else {
      OtherStepsKeepCarved(node, e);
      Reservation.ReservedMonotone(node.view, ledger - Reservation.CarvedLedger(node').Keys,
                                   ledger - Reservation.CarvedLedger(node).Keys);
    }
  }

  lemma CreateKeepsRest(node: Reservation.State, id: ObjectKey, claim: Claim)
    requires Reservation.Possible(node, Reservation.CreateClaim(id, claim))
    requires Reservation.KeyOf(id) !in node.status.preAllocated
    ensures var node' := Reservation.Apply(ClaimKeys, node, Reservation.CreateClaim(id, claim));
            var ledger := node.status.preAllocated;
            Reserved(node'.view, ledger - Reservation.CarvedLedger(node').Keys)
            == Reserved(node.view, ledger - Reservation.CarvedLedger(node).Keys)
  {
    hide Reserved, MakePVCKey;
    var node' := Reservation.Apply(ClaimKeys, node, Reservation.CreateClaim(id, claim));
    assert Reservation.CarvedLedger(node') == Reservation.CarvedLedger(node);
    Reservation.CreateReserves(node.view, id, claim, node.status.preAllocated - Reservation.CarvedLedger(node).Keys);
  }

  lemma OtherStepsKeepCarved(node: Reservation.State, e: Reservation.Event)
    requires Reservation.Inv(node) && Reservation.Possible(node, e) && (e.BindVolume? || e.Carve? || e.Collect?)
    ensures var node' := Reservation.Apply(ClaimKeys, node, e);
            && Reservation.CarvedLedger(node).Keys <= Reservation.CarvedLedger(node').Keys
            && node'.view == node.view
  {
    hide Reservation.GroupInv, Reservation.BoundInv, Reservation.AdmittedInv, Reservation.Backed, Reservation.Covered,
         Reserved, SumMap, MakePVCKey, CarvedBytes;
    Reservation.NamesAreFresh(node, e.pv);
    var node' := Reservation.Apply(ClaimKeys, node, e);
    forall k | Reservation.Carved(node, k) ensures Reservation.Carved(node', k) {
      StepKeepsCarved(node, e, k);
    }
    assert node'.status == node.status;
  }

  lemma StepKeepsCarved(node: Reservation.State, e: Reservation.Event, k: string)
    requires Reservation.Possible(node, e) && (e.BindVolume? || e.Carve? || e.Collect?) && Reservation.Carved(node, k)
    requires e.Collect? ==> node.boundTo[k] != e.pv
    ensures Reservation.Carved(Reservation.Apply(ClaimKeys, node, e), k)
  {
    hide MakePVCKey, CarvedBytes, SumMap;
  }

  lemma DeleteShrinksRest(node: Reservation.State, id: ObjectKey)
    requires Reservation.Inv(node) && Reservation.Possible(node, Reservation.DeleteClaim(id))
    ensures var node', ledger := Reservation.Apply(ClaimKeys, node, Reservation.DeleteClaim(id)), node.status.preAllocated;
            Reserved(node'.view, ledger - Reservation.CarvedLedger(node').Keys)
            <= Reserved(node.view, ledger - Reservation.CarvedLedger(node).Keys)
  {
    var node', key := Reservation.Apply(ClaimKeys, node, Reservation.DeleteClaim(id)), Reservation.KeyOf(id);
    var ledger, carved := node.status.preAllocated, Reservation.CarvedLedger(node).Keys;
    var rest := ledger - carved;
    Reservation.DeletedLedger(node, id, node');
    Reservation.KeyNamesOneClaim(key, id);
    assert KeySize(node'.view, key) == 0;
    hide Reservation.Inv, Reserved, KeySize, MakePVCKey, Reservation.CarvedLedger;
    ReservedInsert(node'.view, rest, key);
    Reservation.ReservedMonotone(node'.view, ledger - (carved - {key}), rest + {key});
    Reservation.DeleteReserves(node.view, id, rest);
  }

  lemma VersionGrows(s: State, e: Event)
    requires Possible(s, e)
    ensures s.version <= Apply(ClaimKeys, s, e).version
  {
  }

  /** The step creates a claim whose name is in the ledger. */
  predicate Reuses(s: State, e: Event) {
    e.NodeEvent? && e.event.CreateClaim? && Reservation.KeyOf(e.event.id) in s.node.status.preAllocated
  }

  predicate BySync(e: Event) {
    e.Measure? || e.List? || e.WriteBack? || e.AgentDies?
  }

  lemma StepKeepsRest(s: State, e: Event, vg: VGInfo)
    requires Inv(s) && Possible(s, e) && !Reuses(s, e) && !BySync(e) && Reservation.RestFits(s.node, vg)
    ensures Apply(ClaimKeys, s, e).version == s.version ==>
              Reservation.RestFits(Apply(ClaimKeys, s, e).node, vg)
  {
    if e.NodeEvent? {
      NodeEventKeepsRest(s.node, e.event, vg);
    } else if e.Bind? && Admitted(ClaimKeys, s.node, e.pod).status == s.node.status {
      assert Reservation.CarvedLedger(Admitted(ClaimKeys, s.node, e.pod)) == Reservation.CarvedLedger(s.node);
    }
  }

  lemma NodeEventKeepsRest(node: Reservation.State, e: Reservation.Event, vg: VGInfo)
    requires Reservation.Inv(node) && Reservation.Possible(node, e) && !e.Schedule? && !e.Sync?
    requires e.CreateClaim? ==> Reservation.KeyOf(e.id) !in node.status.preAllocated
    requires Reservation.RestFits(node, vg)
    ensures Reservation.RestFits(Reservation.Apply(ClaimKeys, node, e), vg)
  {
    hide Reservation.Inv, Reservation.Possible, Reservation.Apply, Reservation.CarvedLedger, Reserved;
    RestShrinks(node, e);
    PendingWriteCommutes(node, e, vg, {});
  }

  lemma {:induction false} RestLasts(run: seq<State>, events: seq<Event>, i: nat, j: nat)
    requires IsRun(run, events) && i < j < |run| && events[i].Measure?
    requires forall m | i < m < j :: !BySync(events[m]) && !Reuses(run[m], events[m])
    ensures run[i].version <= run[j].version
    ensures run[j].sync == Some(Measured(events[i].version, Reservation.Group(run[i].node)))
    ensures run[i].version == run[j].version ==> Reservation.RestFits(run[j].node, Reservation.Group(run[i].node))
  {
    hide Inv, Assumed, Initial, Reservation.Group, Reservation.RestFits, Reservation.Possible, Reservation.Apply, Reuses;
    RunKeepsInv(run, events, j - 1);
    if i == j - 1 {
      MeasureKeepsInv(run[i], events[i].version);
    } else {
      RestLasts(run, events, i, j - 1);
      VersionGrows(run[j - 1], events[j - 1]);
      if run[i].version == run[j].version {
        StepKeepsRest(run[j - 1], events[j - 1], Reservation.Group(run[i].node));
      }
    }
  }

  /** What a list has to show. The agent measured at step `i` and lists at `j`, on the same version of the
      record, and no name of the ledger was used again in between. If the list has every carved claim
      with a reservation, as the present one does, then it lands well if and only if every admitted
      claim on it is carved and the group is still as free as measured, in whole GiB. */
  lemma ListLandsExactly(run: seq<State>, events: seq<Event>, i: nat, j: nat, bound: set<string>)
    requires IsRun(run, events) && i < j < |run| && events[i].Measure? && run[i].version == run[j].version
    requires forall m | i < m < j :: !BySync(events[m]) && !Reuses(run[m], events[m])
    requires Reservation.CarvedLedger(run[j].node).Keys <= bound || bound == run[j].node.boundTo.Keys
    ensures var node, vg := run[j].node, Reservation.Group(run[i].node);
            Reservation.Lands(node, vg, bound) <==>
            && (forall k | k in node.admitted && k in bound :: Reservation.Carved(node, k))
            && vg.vgFree / 1024 <= Reservation.Free(node) / GIB
  {
    hide IsRun, Reservation.Group, Reservation.RestFits, Reservation.Lands, Reservation.Carved, Reuses;
    RunKeepsInv(run, events, j);
    RestLasts(run, events, i, j);
    var node, vg := run[j].node, Reservation.Group(run[i].node);
    assert 0 <= Reservation.Free(node);
    hide Inv;
    Reservation.CarvedIsBound(node);
    Reservation.CompleteListLandsExactly(node, vg, bound);
  }

  // ------------------------------------------------------- the filter's verdict

  predicate Names(pod: Pod, id: ObjectKey) {
    pod.namespace == id.0 && Some(id.1) in pod.volumes
  }

  lemma FewerKeys(view: View, view': View, pod: Pod)
    requires forall name | Some(name) in pod.volumes && IsDriverClaim(view', pod.namespace, name) ::
               IsDriverClaim(view, pod.namespace, name)
    ensures PodKeys(view', pod) <= PodKeys(view, pod)
  {
    forall k | k in PodKeys(view', pod) ensures k in PodKeys(view, pod) {
      DriverKeysMembers(view', pod.namespace, pod.volumes, k);
      DriverKeysMembers(view, pod.namespace, pod.volumes, k);
      var i :| 0 <= i < |pod.volumes| && pod.volumes[i].Some?
               && IsDriverClaim(view', pod.namespace, pod.volumes[i].value)
               && k == MakePVCKey(pod.namespace, pod.volumes[i].value);
      assert Some(pod.volumes[i].value) in pod.volumes;
    }
  }

  lemma CreateKeepsRoom(node: Reservation.State, id: ObjectKey, claim: Claim, pod: Pod)
    requires ValidView(node.view) && Reservation.Possible(node, Reservation.CreateClaim(id, claim))
    requires Reservation.Room(node, pod) && !Names(pod, id) && Reservation.KeyOf(id) !in node.status.preAllocated
    ensures Reservation.Room(Reservation.Apply(ClaimKeys, node, Reservation.CreateClaim(id, claim)), pod)
  {
    var view := node.view;
    var view' := view.(claims := view.claims[id := claim]);
    var ledger, keys := node.status.preAllocated, PodKeys(view, pod);
    FewerKeys(view, view', pod);
    if Reservation.KeyOf(id) in keys {
      Reservation.PodKeysNameClaims(view, pod, Reservation.KeyOf(id));
      Reservation.KeyNamesOneClaim(Reservation.KeyOf(id), id);
      assert false;
    }
    hide Reserved, DriverKeys, MakePVCKey;
    Reservation.CreateReserves(view, id, claim, ledger + keys);
    Reservation.ReservedMonotone(view', ledger + PodKeys(view', pod), ledger + keys);
  }

  lemma DeleteKeepsRoom(node: Reservation.State, id: ObjectKey, pod: Pod)
    requires Reservation.Room(node, pod)
    ensures Reservation.Room(Reservation.Apply(ClaimKeys, node, Reservation.DeleteClaim(id)), pod)
  {
    var view := node.view;
    var view' := view.(claims := view.claims - {id});
    var ledger, keys := node.status.preAllocated, PodKeys(view, pod);
    FewerKeys(view, view', pod);
    hide Reserved, DriverKeys, MakePVCKey;
    Reservation.DeleteReserves(view, id, ledger + keys);
    Reservation.ReservedMonotone(view', ledger + PodKeys(view', pod), ledger + keys);
  }

  lemma StepKeepsVerdict(s: State, e: Event, pod: Pod)
    requires Inv(s) && Possible(s, e) && !Reuses(s, e) && Reservation.Room(s.node, pod)
    requires e.NodeEvent? && e.event.CreateClaim? ==> !Names(pod, e.event.id)
    ensures Apply(ClaimKeys, s, e).version == s.version ==> Reservation.Room(Apply(ClaimKeys, s, e).node, pod)
  {
    match e {
      case NodeEvent(CreateClaim(id, claim)) => CreateKeepsRoom(s.node, id, claim, pod);
      case NodeEvent(DeleteClaim(id)) => DeleteKeepsRoom(s.node, id, pod);
      case _ => hide Reservation.Inv, Reserved;
    }
  }

  lemma FilterFindsRoom(s: State, pod: Pod)
    requires Inv(s) && Possible(s, Filter(pod))
    ensures Reservation.Room(s.node, pod)
  {
    Reservation.ScheduleReserves(s.node, pod);
  }

  /** A pod that passed the filter still has room as long as the record keeps its version, no claim that
      the pod names is created and no name of the ledger is used again: there is then room for its bind,
      however late. */
  lemma {:induction false} VerdictLasts(run: seq<State>, events: seq<Event>, i: nat, j: nat, pod: Pod)
    requires IsRun(run, events) && i <= j < |run| && Possible(run[i], Filter(pod))
    requires forall m | i <= m < j && events[m].NodeEvent? && events[m].event.CreateClaim? ::
               !Names(pod, events[m].event.id) && !Reuses(run[m], events[m])
    ensures run[i].version <= run[j].version
    ensures run[i].version == run[j].version ==> Reservation.Room(run[j].node, pod)
  {
    hide Inv, Possible, Assumed, Apply, Reservation.Room, Initial;
    if i == j {
      RunKeepsInv(run, events, i);
      FilterFindsRoom(run[i], pod);
    } else {
      VerdictLasts(run, events, i, j - 1, pod);
      RunKeepsInv(run, events, j - 1);
      VersionGrows(run[j - 1], events[j - 1]);
      if run[i].version == run[j].version {
        StepKeepsVerdict(run[j - 1], events[j - 1], pod);
      }
    }
  }
}
