/** The bind loop as written reserves nothing. When does it overcommit? */
module AsWritten {
  import opened Keys
  import opened Sums
  import opened Rounding
  import opened Scheduler
  import opened LocalVolumes
  import opened Reservation
  import Ledger
  import Interleaving

  /** A step as written, of callers at their own pace: a bind comes whenever it comes, and the recorded
      status may become anything, since what happens to the group does not depend on it. */
  ghost predicate Loose(s: State, e: Event, s': State) {
    (e.Schedule? || Possible(s, e)) && s' == Apply(MapValues, s, e).(status := s'.status)
  }

  ghost predicate LooseRun(run: seq<State>, events: seq<Event>) {
    && |run| == |events| + 1
    && Initial(run[0])
    && forall i | 0 <= i < |events| :: Loose(run[i], events[i], run[i + 1])
  }

  /** What a bind adds to the bytes that are due. */
  ghost function Added(s: State, pod: Pod): map<string, nat> {
    map k | k in PodKeys(s.view, pod) && k !in s.admitted && !Carved(s, k)
            && SplitPVCKey(k) in s.view.claims && s.view.claims[SplitPVCKey(k)].request.Some?
      :: CarvedBytes(s.view.claims[SplitPVCKey(k)].request.value)
  }

  ghost predicate HasSpace(s: State, pod: Pod) {
    SumMap(Due(s)) + SumMap(Added(s, pod)) <= Free(s)
  }

  ghost predicate Fine(s: State) {
    Linked(s) && SumMap(Due(s)) <= Free(s)
  }

  // ------------------------------------------------------------------ a bind

  lemma BindAddsToDue(s: State, pod: Pod)
    ensures var s' := Apply(MapValues, s, Schedule(pod));
            && Due(s') == Due(s) + Added(s, pod) && Due(s).Keys !! Added(s, pod).Keys
            && SumMap(Due(s')) == SumMap(Due(s)) + SumMap(Added(s, pod)) && Free(s') == Free(s)
  {
    hide SplitPVCKey, CarvedBytes, PodKeys, SumMap;
    var s' := Apply(MapValues, s, Schedule(pod));
    assert Due(s') == Due(s) + Added(s, pod);
    SumUnion(Due(s), Added(s, pod));
  }

  lemma ScheduleIsFine(s: State, pod: Pod)
    requires Fine(s)
    ensures Fine(Apply(MapValues, s, Schedule(pod))) <==> HasSpace(s, pod)
  {
    hide Linked, SumMap, Due, Added;
    AdmitKeepsLinks(s, pod, Apply(MapValues, s, Schedule(pod)));
    BindAddsToDue(s, pod);
  }

  lemma AdmitKeepsLinks(s: State, pod: Pod, s': State)
    requires Linked(s)
    requires s' == s.(status := WithKeys(s.status, BindKeys(MapValues, s.view, pod)),
                      admitted := s.admitted + PodKeys(s.view, pod))
    ensures Linked(s')
  {
    forall k | k in PodKeys(s.view, pod) ensures SplitPVCKey(k) in s.view.claims {
      PodKeysNameClaims(s.view, pod, k);
    }
    hide ValidView, SplitPVCKey, CarvedBytes, PodKeys, SumMap;
  }

  // ------------------------------------------------------------- other steps

  lemma QuietIsFine(s: State, s': State)
    requires Fine(s) && Linked(s') && Free(s') >= Free(s)
    requires Due(s').Keys <= Due(s).Keys && forall k | k in Due(s') :: Due(s')[k] == Due(s)[k]
    ensures Fine(s')
  {
    hide Linked, SumMap, Due;
    SumMonotone(Due(s'), Due(s));
  }

  lemma CarveIsFine(s: State, pv: Name)
    requires Fine(s) && Possible(s, Carve(pv))
    ensures Fine(Apply(MapValues, s, Carve(pv)))
  {
    hide ValidView, GroupInv, BoundInv, AdmittedInv, SumMap, Due, CarvedBytes;
    var s' := Apply(MapValues, s, Carve(pv));
    CarveKeepsLinks(s, pv, CarvedBytes(s.pvs[pv].capacity), s');
    CarveKeepsFit(s, pv, s');
  }

  lemma CarveKeepsFit(s: State, pv: Name, s': State)
    requires BoundInv(s) && Possible(s, Carve(pv)) && s' == Apply(MapValues, s, Carve(pv))
    ensures Free(s') - SumMap(Due(s')) == Free(s) - SumMap(Due(s))
  {
    hide BoundInv, SumMap, Due, CarvedBytes;
    CarvedWasDue(s, pv);
    CarvedIsNoLongerDue(s, pv, s');
    BytesMove(Due(s), s.lvs, s.pvs[pv].claim, pv, CarvedBytes(s.pvs[pv].capacity));
  }

  lemma BytesMove(due: map<string, nat>, lvs: map<Name, nat>, k: string, pv: Name, bytes: nat)
    requires k in due && due[k] == bytes && pv !in lvs
    ensures SumMap(due - {k}) + SumMap(lvs[pv := bytes]) == SumMap(due) + SumMap(lvs)
  {
    SumRemove(due, k);
    SumInsert(lvs, pv, bytes);
  }

  lemma CarvedWasDue(s: State, pv: Name)
    requires BoundInv(s) && Possible(s, Carve(pv))
    ensures var k := s.pvs[pv].claim; k in Due(s) && Due(s)[k] == CarvedBytes(s.pvs[pv].capacity)
  {
    hide SplitPVCKey, CarvedBytes, SumMap;
  }

  lemma CarvedIsNoLongerDue(s: State, pv: Name, s': State)
    requires BoundInv(s) && Possible(s, Carve(pv)) && s' == Apply(MapValues, s, Carve(pv))
    ensures Due(s') == Due(s) - {s.pvs[pv].claim}
  {
    hide Requests, SplitPVCKey, CarvedBytes, SumMap;
  }

  lemma CreateIsFine(s: State, id: ObjectKey, claim: Claim)
    requires Fine(s) && Possible(s, CreateClaim(id, claim))
    ensures Fine(Apply(MapValues, s, CreateClaim(id, claim)))
  {
    var s' := Apply(MapValues, s, CreateClaim(id, claim));
    hide ValidView, GroupInv, BoundInv, AdmittedInv, SumMap, Due, MakePVCKey;
    CreateKeepsLinks(s, id, claim, s');
    CreateKeepsDue(s, id, claim, s');
    QuietIsFine(s, s');
  }

  lemma CreateKeepsDue(s: State, id: ObjectKey, claim: Claim, s': State)
    requires AdmittedInv(s) && id !in s.view.claims
    requires s' == s.(view := s.view.(claims := s.view.claims[id := claim]))
    ensures Due(s') == Due(s)
  {
    hide SplitPVCKey, CarvedBytes;
  }

  lemma DeleteIsFine(s: State, id: ObjectKey)
    requires Fine(s) && Possible(s, DeleteClaim(id))
    ensures Fine(Apply(MapValues, s, DeleteClaim(id)))
  {
    var s' := Apply(MapValues, s, DeleteClaim(id));
    DeleteKeepsLinks(s, id, s');
    hide Linked, SplitPVCKey, CarvedBytes, MakePVCKey, Unbound;
    QuietIsFine(s, s');
  }

  lemma SameDue(s: State, s': State)
    requires s'.view == s.view && s'.admitted == s.admitted
    requires forall k | k in s.admitted :: Carved(s', k) <==> Carved(s, k)
    ensures Due(s') == Due(s)
  {
    hide Carved, SplitPVCKey, CarvedBytes;
  }

  lemma BindVolumeKeepsCarved(s: State, id: ObjectKey, pv: Name, k: string)
    requires pv !in s.lvs && Possible(s, BindVolume(id, pv))
    ensures Carved(Apply(MapValues, s, BindVolume(id, pv)), k) <==> Carved(s, k)
  {
    hide MakePVCKey;
  }

  lemma BindVolumeIsFine(s: State, id: ObjectKey, pv: Name)
    requires Fine(s) && Possible(s, BindVolume(id, pv))
    ensures Fine(Apply(MapValues, s, BindVolume(id, pv)))
  {
    var s' := Apply(MapValues, s, BindVolume(id, pv));
    NamesAreFresh(s, pv);
    ClaimRequests(s.view, id);
    hide ValidView, GroupInv, BoundInv, AdmittedInv, Requests, Due, SumMap, MakePVCKey, Carved;
    BindVolumeKeepsLinks(s, id, s.view.claims[id].request.value, pv, s');
    forall k | k in s.admitted ensures Carved(s', k) <==> Carved(s, k) {
      BindVolumeKeepsCarved(s, id, pv, k);
    }
    SameDue(s, s');
    QuietIsFine(s, s');
  }

  lemma CollectIsFine(s: State, pv: Name)
    requires Fine(s) && Possible(s, Collect(pv))
    ensures Fine(Apply(MapValues, s, Collect(pv)))
  {
    var s' := Apply(MapValues, s, Collect(pv));
    NamesAreFresh(s, pv);
    assert forall k | k in s.admitted :: Carved(s', k) <==> Carved(s, k);
    hide Linked, Due, SumMap, Carved;
    CollectKeepsLinks(s, pv, s');
    SameDue(s, s');
    QuietIsFine(s, s');
  }

  lemma SyncIsFine(s: State)
    requires Fine(s)
    ensures Fine(Synced(s))
  {
    hide Linked, Due, SumMap;
    SyncKeepsLinks(s);
    SameDue(s, Synced(s));
    QuietIsFine(s, Synced(s));
  }

  lemma StepIsFine(s: State, e: Event)
    requires Fine(s) && Possible(s, e) && !e.Schedule?
    ensures Fine(Apply(MapValues, s, e))
  {
    hide Fine;
    match e
    case CreateClaim(id, claim) => CreateIsFine(s, id, claim);
    case DeleteClaim(id) => DeleteIsFine(s, id);
    case BindVolume(id, pv) => BindVolumeIsFine(s, id, pv);
    case Carve(pv) => CarveIsFine(s, pv);
    case Sync => SyncIsFine(s);
    case Collect(pv) => CollectIsFine(s, pv);
  }

  /** The recorded status makes no difference. */
  lemma StatusIsIrrelevant(s: State, status: Status)
    requires Fine(s)
    ensures Fine(s.(status := status))
  {
    var s' := s.(status := status);
    LinksIgnoreStatus(s, s');
    hide Linked, Due, SumMap;
    SameDue(s, s');
  }

  lemma LinksIgnoreStatus(s: State, s': State)
    requires Linked(s) && s' == s.(status := s'.status)
    ensures Linked(s')
  {
    hide ValidView, SplitPVCKey, CarvedBytes, SumMap;
  }

  lemma LooseStepIsFine(s: State, e: Event, s': State)
    requires Fine(s) && Loose(s, e, s') && (e.Schedule? ==> HasSpace(s, e.pod))
    ensures Fine(s')
  {
    assert Meaningful(s, e);
    hide Fine, Possible, Apply, HasSpace;
    if e.Schedule? {
      ScheduleIsFine(s, e.pod);
    } else {
      StepIsFine(s, e);
    }
    StatusIsIrrelevant(Apply(MapValues, s, e), s'.status);
  }

  // -------------------------------------------------------------- whole runs

  lemma {:induction false} RunIsFine(run: seq<State>, events: seq<Event>, n: nat)
    requires LooseRun(run, events) && n < |run|
    requires forall j | 0 <= j < n && events[j].Schedule? :: HasSpace(run[j], events[j].pod)
    ensures Fine(run[n])
  {
    if n == 0 {
      assert Due(run[0]) == map[];
    } else {
      hide Fine, Loose, HasSpace, Initial;
      RunIsFine(run, events, n - 1);
      LooseStepIsFine(run[n - 1], events[n - 1], run[n]);
    }
  }

  lemma BindOvercommitsExactly(s: State, pod: Pod, s': State)
    requires Loose(s, Schedule(pod), s')
    ensures !Overcommitted(s') <==> HasSpace(s, pod)
  {
    hide SumMap, Due, Added;
    var t := Apply(MapValues, s, Schedule(pod));
    BindAddsToDue(s, pod);
    SameDue(t, s');
  }

  /** As written, whatever the pace of the callers: no state up to `n` is overcommitted if and only if, at
      every bind before, what it adds fits the free space beside what is due already. */
  lemma AsWrittenExactly(run: seq<State>, events: seq<Event>, n: nat)
    requires LooseRun(run, events) && n < |run|
    ensures (forall i | 0 <= i <= n :: !Overcommitted(run[i])) <==>
            (forall j | 0 <= j < n && events[j].Schedule? :: HasSpace(run[j], events[j].pod))
  {
    hide Loose, HasSpace, Initial, Overcommitted;
    if forall j | 0 <= j < n && events[j].Schedule? :: HasSpace(run[j], events[j].pod) {
      forall i | 0 <= i <= n ensures !Overcommitted(run[i]) {
        RunIsFine(run, events, i);
        FineIsNotOvercommitted(run[i]);
      }
    }
    if forall i | 0 <= i <= n :: !Overcommitted(run[i]) {
      forall j | 0 <= j < n && events[j].Schedule? ensures HasSpace(run[j], events[j].pod) {
        assert !Overcommitted(run[j + 1]);
        BindOvercommitsExactly(run[j], events[j].pod, run[j + 1]);
      }
    }
  }

  lemma FineIsNotOvercommitted(s: State)
    requires Fine(s)
    ensures !Overcommitted(s)
  {
  }

  // ---------------------------------------------------- the interleaved runs

  function Nodes(run: seq<Interleaving.State>): (nodes: seq<State>)
    ensures |nodes| == |run| && forall i | 0 <= i < |run| :: nodes[i] == run[i].node
  {
    seq(|run|, i requires 0 <= i < |run| => run[i].node)
  }

  /** What an interleaved event is to the group; measuring, listing and writing are at most a change of
      the status. */
  function Shadow(e: Interleaving.Event): Event {
    match e
    case NodeEvent(event) => event
    case Bind(pod) => Schedule(pod)
    case _ => Sync
  }

  function Shadows(events: seq<Interleaving.Event>): (shadows: seq<Event>)
    ensures |shadows| == |events| && forall i | 0 <= i < |events| :: shadows[i] == Shadow(events[i])
  {
    seq(|events|, i requires 0 <= i < |events| => Shadow(events[i]))
  }

  lemma InterleavedStepIsLoose(s: Interleaving.State, e: Interleaving.Event)
    requires Interleaving.Possible(s, e)
    ensures Loose(s.node, Shadow(e), Interleaving.Apply(MapValues, s, e).node)
  {
    hide Free, Refreshed, BindKeys, PodKeys, Group, Fits;
  }

  /** The same for the runs in which filter and bind, and measuring, listing and writing, are steps of
      their own. */
  lemma InterleavedAsWrittenExactly(run: seq<Interleaving.State>, events: seq<Interleaving.Event>, n: nat)
    requires Interleaving.PossibleRun(MapValues, run, events) && n < |run|
    ensures (forall i | 0 <= i <= n :: !Overcommitted(run[i].node)) <==>
            (forall j | 0 <= j < n && events[j].Bind? :: HasSpace(run[j].node, events[j].pod))
  {
    hide Interleaving.Possible, Interleaving.Apply, Overcommitted, HasSpace, Loose;
    var nodes, shadows := Nodes(run), Shadows(events);
    forall i | 0 <= i < |events| ensures Loose(nodes[i], shadows[i], nodes[i + 1]) {
      InterleavedStepIsLoose(run[i], events[i]);
    }
    AsWrittenExactly(nodes, shadows, n);
    ShadowedBinds(run, events, n);
    assert forall i | 0 <= i <= n :: nodes[i] == run[i].node;
  }

  lemma ShadowedBinds(run: seq<Interleaving.State>, events: seq<Interleaving.Event>, n: nat)
    requires Interleaving.PossibleRun(MapValues, run, events) && n < |run|
    ensures (forall j | 0 <= j < n && Shadows(events)[j].Schedule? :: HasSpace(Nodes(run)[j], Shadows(events)[j].pod))
            <==> (forall j | 0 <= j < n && events[j].Bind? :: HasSpace(run[j].node, events[j].pod))
  {
    hide Interleaving.Apply, HasSpace, Possible;
    assert forall j | 0 <= j < n :: Shadows(events)[j].Schedule? <==> events[j].Bind?;
  }

  // ----------------------------------------------- one pod on a calm node at a time

  /** Nothing is on its way: every admitted claim has its volume, and the recorded free size is there. */
  ghost predicate Calm(s: State) {
    (forall k | k in s.admitted :: Carved(s, k)) && s.status.freeSize * GIB <= Free(s)
  }

  ghost predicate EmptyLedger(s: State) {
    s.status.preAllocated <= {""} && s.status.freeSize < TWO64 && s.total < TWO63
  }

  lemma RequestFits(s: State, pod: Pod)
    requires ValidView(s.view) && EmptyLedger(s) && Possible(s, Schedule(pod))
    ensures Reserved(s.view, PodKeys(s.view, pod)) <= s.status.freeSize
  {
    hide ValidView, Reserved, RequestSum, DriverKeys, NamedOnceAndNew;
    Ledger.EmptyKeysReserveNothing(s.view, s.status.preAllocated);
    Ledger.EmptyKeysReserveNothing(s.view, {});
    RequestCoversReservation(s.view, pod.namespace, pod.volumes, {});
    RequestDoesNotWrap(s.view, pod.namespace, pod.volumes);
    assert {} + PodKeys(s.view, pod) == PodKeys(s.view, pod);
  }

  /** What a bind adds fits what the scheduler computes for its keys. */
  lemma AddedWithinReserved(s: State, pod: Pod)
    ensures SumMap(Added(s, pod)) <= Reserved(s.view, PodKeys(s.view, pod)) * GIB
  {
    var sizes := Sizes(s.view, PodKeys(s.view, pod));
    hide PodKeys, SumMap, Carved;
    forall k | k in Added(s, pod) ensures k in sizes && Added(s, pod)[k] <= sizes[k] * GIB {
      KeySizeCovers(s.view, k, s.view.claims[SplitPVCKey(k)].request.value);
    }
    hide KeySize, CarvedBytes, SplitPVCKey, Added;
    SumOfCarvedFits(Added(s, pod), sizes);
  }

  lemma CalmHasSpace(s: State, pod: Pod)
    requires ValidView(s.view) && EmptyLedger(s) && Possible(s, Schedule(pod)) && Calm(s)
    ensures HasSpace(s, pod)
  {
    assert Due(s) == map[];
    hide ValidView, Reserved, Added, Due, PodKeys;
    RequestFits(s, pod);
    AddedWithinReserved(s, pod);
  }

  lemma StepKeepsEmptyLedger(s: State, e: Event)
    requires EmptyLedger(s) && Possible(s, e)
    ensures EmptyLedger(Apply(MapValues, s, e))
  {
    hide SumMap, PodKeys;
  }

  lemma {:induction false} RunKeepsEmptyLedger(run: seq<State>, events: seq<Event>, n: nat)
    requires PossibleRun(MapValues, run, events) && n < |run|
    ensures EmptyLedger(run[n])
  {
    if n > 0 {
      hide EmptyLedger, Possible, Apply, Initial;
      RunKeepsEmptyLedger(run, events, n - 1);
      StepKeepsEmptyLedger(run[n - 1], events[n - 1]);
    }
  }

  lemma PossibleRunIsLoose(run: seq<State>, events: seq<Event>)
    requires PossibleRun(MapValues, run, events)
    ensures LooseRun(run, events)
  {
    hide Possible, Apply, Initial;
  }

  lemma {:induction false} CalmRunHasSpace(run: seq<State>, events: seq<Event>, n: nat)
    requires PossibleRun(MapValues, run, events) && n < |run|
    requires forall j | 0 <= j < n && events[j].Schedule? :: Calm(run[j])
    ensures forall j | 0 <= j < n && events[j].Schedule? :: HasSpace(run[j], events[j].pod)
  {
    hide EmptyLedger, Possible, Apply, Initial, Calm, HasSpace, GroupInv, BoundInv, AdmittedInv, Due, SumMap;
    if n > 0 {
      CalmRunHasSpace(run, events, n - 1);
      PossibleRunIsLoose(run, events);
      RunIsFine(run, events, n - 1);
      RunKeepsEmptyLedger(run, events, n - 1);
      if events[n - 1].Schedule? {
        CalmHasSpace(run[n - 1], events[n - 1].pod);
      }
    }
  }

  /** For instance, as written and without any assumption on syncs and claims, the node is not overcommitted
      and the subtraction does not wrap as long as, whenever a pod was admitted, every admitted
      claim was carved and the recorded free size was there. */
  lemma AsWrittenSafety(run: seq<State>, events: seq<Event>, n: nat)
    requires PossibleRun(MapValues, run, events) && n < |run|
    requires forall j | 0 <= j < n && events[j].Schedule? :: Calm(run[j])
    ensures forall i | 0 <= i <= n :: !Overcommitted(run[i])
    ensures var status := run[n].status; NodeFreeSize(run[n].view, status.freeSize, status.preAllocated) == status.freeSize
  {
    hide PossibleRun, Calm, Overcommitted, HasSpace, LooseRun;
    CalmRunHasSpace(run, events, n);
    PossibleRunIsLoose(run, events);
    AsWrittenExactly(run, events, n);
    RunIsFine(run, events, n);
    RunKeepsEmptyLedger(run, events, n);
    hide BoundInv, GroupInv, AdmittedInv, Reserved;
    Ledger.EmptyKeysReserveNothing(run[n].view, run[n].status.preAllocated);
  }
}
