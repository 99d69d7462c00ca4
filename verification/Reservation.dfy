/** Capacity on one node: pods are admitted against the recorded free size, volumes are bound,
    carved and collected, and the agent refreshes the record. Sizes are bytes, except in the
    record, which counts GiB. */
module Reservation {
  import opened Wrappers
  import opened Keys
  import opened Sums
  import opened Rounding
  import opened Scheduler
  import opened LocalVolumes

  /** Volume names are unique identifiers; a logical volume is named like its volume. */
  type Name = nat

  datatype PV = PV(claim: string, capacity: nat, bound: bool)

  /** `lvs` is the volume group, logical volume to size; `boundTo` gives the volume of each bound
      claim; `admitted` holds the claims of the pods scheduled here that still exist. */
  datatype State = State(
    view: View, total: nat, lvs: map<Name, nat>, pvs: map<Name, PV>,
    boundTo: map<string, Name>, status: Status, admitted: set<string>)

  datatype Event =
    | CreateClaim(id: ObjectKey, claim: Claim)
    | DeleteClaim(id: ObjectKey)
    | BindVolume(id: ObjectKey, pv: Name)
    | Schedule(pod: Pod)
    | Carve(pv: Name)
    | Sync
    | Collect(pv: Name)

  function KeyOf(id: ObjectKey): string {
    MakePVCKey(id.0, id.1)
  }

  ghost function Free(s: State): int {
    s.total - SumMap(s.lvs)
  }

  predicate Carved(s: State, k: string) {
    k in s.boundTo && s.boundTo[k] in s.lvs
  }

  /** The scheduler's filter on the current record. */
  ghost predicate Fits(s: State, pod: Pod) {
    || RequestSize(s.view, pod) == 0
    || NodeFreeSize(s.view, s.status.freeSize, s.status.preAllocated) >= RequestSize(s.view, pod)
  }

  /** The agent's sync sees the bound volume of every admitted claim already carved. */
  predicate BoundVolumesAreCarved(s: State) {
    forall k | k in s.admitted && k in s.boundTo :: Carved(s, k)
  }

  /** What the code and its surroundings let happen. */
  ghost predicate Possible(s: State, e: Event) {
    match e
    case CreateClaim(id, claim) =>
      && id !in s.view.claims && SLASH !in id.0 && SLASH !in id.1 && id.1 != ""
      && (claim.request.Some? ==> claim.request.value < TWO63)
    case DeleteClaim(id) => id in s.view.claims
    case BindVolume(id, pv) =>
      id in s.view.claims && s.view.claims[id].request.Some? && KeyOf(id) !in s.boundTo && pv !in s.pvs
    case Schedule(pod) => |pod.volumes| < 0x8000_0000 && Fits(s, pod)
    case Carve(pv) =>
      && pv in s.pvs && s.pvs[pv].bound && s.pvs[pv].claim in s.admitted && pv !in s.lvs
      && CarvedBytes(s.pvs[pv].capacity) <= Free(s)
    case Sync => true
    case Collect(pv) => pv in s.pvs && !s.pvs[pv].bound && pv in s.lvs
  }

  /** A new claim whose name lingers in the ledger is covered by the recorded free size. */
  ghost predicate ReuseFits(s: State, id: ObjectKey, claim: Claim) {
    Reserved(s.view.(claims := s.view.claims[id := claim]), s.status.preAllocated) <= s.status.freeSize
  }

  /** If the claim is carved and its key lingers, the recorded free size can do without its volume. */
  ghost predicate DeleteFits(s: State, id: ObjectKey) {
    KeyOf(id) in CarvedLedger(s) ==> s.status.freeSize * GIB <= Balance(s) - CarvedLedger(s)[KeyOf(id)]
  }

  /** The conditions under which creating and deleting claims and syncing are safe. */
  ghost predicate Assumed(s: State, e: Event) {
    match e
    case CreateClaim(id, claim) => ReuseFits(s, id, claim)
    case DeleteClaim(id) => DeleteFits(s, id)
    case Sync => BoundVolumesAreCarved(s)
    case _ => true
  }

  ghost predicate Enabled(s: State, e: Event) {
    Possible(s, e) && Assumed(s, e)
  }

  /** The objects an event speaks of exist. */
  predicate Meaningful(s: State, e: Event) {
    match e
    case BindVolume(id, _) => id in s.view.claims && s.view.claims[id].request.Some?
    case Carve(pv) => pv in s.pvs
    case _ => true
  }

  /** What the agent measures. */
  ghost function Group(s: State): VGInfo {
    VGInfo(s.total / MIB, if Free(s) < 0 then 0 else Free(s) / MIB)
  }

  ghost function Synced(s: State): State {
    s.(status := Refreshed(s.status, Group(s), s.boundTo.Keys))
  }

  ghost function Apply(mode: BindMode, s: State, e: Event): State
    requires Meaningful(s, e)
  {
    match e
    case CreateClaim(id, claim) => s.(view := s.view.(claims := s.view.claims[id := claim]))
    case DeleteClaim(id) =>
      var k := KeyOf(id);
      s.(view := s.view.(claims := s.view.claims - {id}),
         pvs := Unbound(s, k),
         boundTo := s.boundTo - {k},
         admitted := s.admitted - {k})
    case BindVolume(id, pv) =>
      s.(pvs := s.pvs[pv := PV(KeyOf(id), s.view.claims[id].request.value, true)],
         boundTo := s.boundTo[KeyOf(id) := pv])
    case Schedule(pod) =>
      s.(status := WithKeys(s.status, BindKeys(mode, s.view, pod)),
         admitted := s.admitted + PodKeys(s.view, pod))
    case Carve(pv) => s.(lvs := s.lvs[pv := CarvedBytes(s.pvs[pv].capacity)])
    case Sync => Synced(s)
    case Collect(pv) => s.(lvs := s.lvs - {pv})
  }

  /** A registered node: an empty ledger, nothing carved, nothing admitted. */
  ghost predicate Initial(s: State) {
    && ValidView(s.view) && s.total < TWO63
    && s.lvs == map[] && s.pvs == map[] && s.boundTo == map[]
    && s.status == Status(0, 0, {}) && s.admitted == {}
  }

  // -------------------------------------------------------------- invariant

  /** The group holds what was carved for its volumes, within its size. */
  ghost predicate GroupInv(s: State) {
    && s.total < TWO63
    && SumMap(s.lvs) <= s.total
    && forall p | p in s.lvs :: p in s.pvs && s.lvs[p] == CarvedBytes(s.pvs[p].capacity)
  }

  /** Bound claims and bound volumes refer to each other, with the size the claim asks for. */
  ghost predicate BoundInv(s: State) {
    && (forall p | p in s.pvs && s.pvs[p].bound :: s.pvs[p].claim in s.boundTo && s.boundTo[s.pvs[p].claim] == p)
    && (forall k | k in s.boundTo ::
          && s.boundTo[k] in s.pvs && s.pvs[s.boundTo[k]].bound && s.pvs[s.boundTo[k]].claim == k
          && Requests(s.view, k, s.pvs[s.boundTo[k]].capacity))
  }

  ghost predicate AdmittedInv(s: State) {
    forall k | k in s.admitted :: SplitPVCKey(k) in s.view.claims
  }

  ghost predicate Linked(s: State) {
    ValidView(s.view) && GroupInv(s) && BoundInv(s) && AdmittedInv(s)
  }

  /** `k` is the key of a live claim that asks for `bytes`. */
  predicate Requests(view: View, k: string, bytes: nat) {
    && SplitPVCKey(k) in view.claims
    && view.claims[SplitPVCKey(k)].request == Some(bytes)
  }

  /** The reserved keys whose volume is carved already: the record still counts their space as free. */
  ghost function CarvedLedger(s: State): map<string, nat> {
    map k | k in s.status.preAllocated && Carved(s, k) :: s.lvs[s.boundTo[k]]
  }

  ghost function Balance(s: State): int {
    Free(s) + SumMap(CarvedLedger(s))
  }

  /** The reservations fit the recorded free size, and the recorded free size is backed by the
      real free space together with what was carved for keys still in the ledger. */
  ghost predicate Backed(s: State) {
    && s.status.freeSize < TWO64
    && Reserved(s.view, s.status.preAllocated) <= s.status.freeSize
    && s.status.freeSize * GIB <= Balance(s)
  }

  ghost predicate Covered(s: State) {
    forall k | k in s.admitted && !Carved(s, k) :: k in s.status.preAllocated
  }

  ghost predicate Inv(s: State) {
    Linked(s) && Backed(s) && Covered(s)
  }

  // ------------------------------------------------------------- key lemmas

  lemma KeySizeCovers(view: View, k: string, bytes: nat)
    requires Requests(view, k, bytes)
    ensures CarvedBytes(bytes) <= KeySize(view, k) * GIB
  {
    RoundingsLineUp(bytes);
  }

  /** What is reserved and not yet carved fits the real free space. */
  lemma UncarvedFits(s: State)
    requires Linked(s) && Backed(s)
    ensures Reserved(s.view, s.status.preAllocated - CarvedLedger(s).Keys) * GIB <= Free(s)
  {
    hide KeySize, CarvedBytes, SplitPVCKey;
    var ledger, carved := s.status.preAllocated, CarvedLedger(s);
    ReservedSplit(s.view, ledger, carved.Keys);
    assert ledger * carved.Keys == carved.Keys;
    var sizes := Sizes(s.view, carved.Keys);
    forall k | k in carved ensures carved[k] <= sizes[k] * GIB {
      KeySizeCovers(s.view, k, s.pvs[s.boundTo[k]].capacity);
    }
    SumOfCarvedFits(carved, sizes);
  }

  lemma ReservedMonotone(view: View, small: set<string>, big: set<string>)
    requires small <= big
    ensures Reserved(view, small) <= Reserved(view, big)
  {
    ReservedSplit(view, big, small);
    assert big * small == small;
  }

  /** A ledger key names a claim only if it is that claim's key. */
  lemma KeyNamesOneClaim(k: string, id: ObjectKey)
    requires SLASH !in id.0 && SLASH !in id.1 && id.1 != ""
    ensures SplitPVCKey(k) == id <==> k == KeyOf(id)
  {
    SplitInvertsMake(id.0, id.1);
    OtherKeysSplitToNothing(k);
    if SplitPVCKey(k) == id {
      MakeInvertsSplit(k);
    }
  }

  // ------------------------------------------------------ each step, in turn

  /** The effect of a claim's creation, on the view alone. */
  lemma CreateReserves(view: View, id: ObjectKey, claim: Claim, ledger: set<string>)
    requires SLASH !in id.0 && SLASH !in id.1 && id.1 != "" && KeyOf(id) !in ledger
    ensures Reserved(view.(claims := view.claims[id := claim]), ledger) == Reserved(view, ledger)
  {
    var view' := view.(claims := view.claims[id := claim]);
    forall k | k in ledger ensures KeySize(view', k) == KeySize(view, k) {
      KeyNamesOneClaim(k, id);
    }
    assert Sizes(view', ledger) == Sizes(view, ledger);
  }

  lemma DeleteReserves(view: View, id: ObjectKey, ledger: set<string>)
    ensures Reserved(view.(claims := view.claims - {id}), ledger) <= Reserved(view, ledger)
  {
    hide SplitPVCKey, ClaimSize;
    SumMonotone(Sizes(view.(claims := view.claims - {id}), ledger), Sizes(view, ledger));
  }

  lemma CreateKeepsLinks(s: State, id: ObjectKey, claim: Claim, s': State)
    requires Linked(s) && id !in s.view.claims && SLASH !in id.0 && SLASH !in id.1 && id.1 != ""
    requires claim.request.Some? ==> claim.request.value < TWO63
    requires s' == s.(view := s.view.(claims := s.view.claims[id := claim]))
    ensures Linked(s')
  {
    assert ValidView(s'.view);
    hide ValidView, SplitPVCKey, CarvedBytes, SumMap;
  }

  /** Steps that change neither the record nor what is carved for its keys. */
  lemma QuietStepKeepsBacked(s: State, s': State)
    requires Backed(s) && Covered(s)
    requires s'.status == s.status && Free(s') >= Free(s) && s'.admitted <= s.admitted
    requires Reserved(s'.view, s.status.preAllocated) <= Reserved(s.view, s.status.preAllocated)
    requires CarvedLedger(s') == CarvedLedger(s)
    requires forall k | k in s'.admitted && Carved(s, k) :: Carved(s', k)
    ensures Backed(s') && Covered(s')
  {
    hide Reserved, SumMap;
  }

  /** Deleting a claim releases its volume. */
  function Unbound(s: State, k: string): map<Name, PV> {
    if k in s.boundTo && s.boundTo[k] in s.pvs
    then s.pvs[s.boundTo[k] := s.pvs[s.boundTo[k]].(bound := false)]
    else s.pvs
  }

  lemma DeleteKeepsBound(s: State, id: ObjectKey, key: string, s': State)
    requires BoundInv(s) && forall k | k != key :: SplitPVCKey(k) != id
    requires s' == s.(view := s.view.(claims := s.view.claims - {id}), pvs := Unbound(s, key),
                      boundTo := s.boundTo - {key}, admitted := s.admitted - {key})
    ensures BoundInv(s')
  {
    hide SplitPVCKey;
  }

  lemma DeleteKeepsLinks(s: State, id: ObjectKey, s': State)
    requires Linked(s) && id in s.view.claims
    requires s' == s.(view := s.view.(claims := s.view.claims - {id}), pvs := Unbound(s, KeyOf(id)),
                      boundTo := s.boundTo - {KeyOf(id)}, admitted := s.admitted - {KeyOf(id)})
    ensures Linked(s')
  {
    var key := KeyOf(id);
    forall k | k != key ensures SplitPVCKey(k) != id {
      KeyNamesOneClaim(k, id);
    }
    DeleteKeepsBound(s, id, key, s');
    assert ValidView(s'.view);
    hide ValidView, BoundInv, SplitPVCKey, MakePVCKey, CarvedBytes, SumMap;
  }

  lemma BindVolumeKeepsLinks(s: State, id: ObjectKey, bytes: nat, pv: Name, s': State)
    requires Linked(s) && KeyOf(id) !in s.boundTo && pv !in s.pvs && Requests(s.view, KeyOf(id), bytes)
    requires s' == s.(pvs := s.pvs[pv := PV(KeyOf(id), bytes, true)], boundTo := s.boundTo[KeyOf(id) := pv])
    ensures Linked(s')
  {
    hide ValidView, SplitPVCKey, MakePVCKey, CarvedBytes, SumMap;
  }

  /** The pod's claims fit the recorded free size together with what is reserved. */
  ghost predicate Room(s: State, pod: Pod) {
    Reserved(s.view, s.status.preAllocated + PodKeys(s.view, pod)) <= s.status.freeSize
  }

  /** What an admitted pod adds to the ledger fits the recorded free size. */
  lemma ScheduleReserves(s: State, pod: Pod)
    requires ValidView(s.view) && s.status.freeSize < TWO64
    requires Reserved(s.view, s.status.preAllocated) <= s.status.freeSize
    requires |pod.volumes| < 0x8000_0000 && Fits(s, pod)
    ensures Room(s, pod)
  {
    hide ValidView, Reserved, RequestSum, DriverKeys, NamedOnceAndNew;
    RequestCoversReservation(s.view, pod.namespace, pod.volumes, s.status.preAllocated);
    RequestDoesNotWrap(s.view, pod.namespace, pod.volumes);
  }

  lemma PodKeysNameClaims(view: View, pod: Pod, k: string)
    requires ValidView(view) && k in PodKeys(view, pod)
    ensures SplitPVCKey(k) in view.claims
  {
    DriverKeysMembers(view, pod.namespace, pod.volumes, k);
    var i :| 0 <= i < |pod.volumes| && pod.volumes[i].Some?
             && IsDriverClaim(view, pod.namespace, pod.volumes[i].value)
             && k == MakePVCKey(pod.namespace, pod.volumes[i].value);
    SplitInvertsMake(pod.namespace, pod.volumes[i].value);
  }

  lemma ScheduleKeepsBacked(s: State, keys: set<string>, s': State)
    requires Backed(s) && Covered(s)
    requires Reserved(s.view, s.status.preAllocated + keys) <= s.status.freeSize
    requires s' == s.(status := WithKeys(s.status, keys), admitted := s.admitted + keys)
    ensures Backed(s') && Covered(s')
  {
    hide Reserved, SumMap;
    SumMonotone(CarvedLedger(s), CarvedLedger(s'));
  }

  lemma ScheduleKeepsLinks(s: State, pod: Pod, s': State)
    requires Linked(s)
    requires s' == s.(status := WithKeys(s.status, PodKeys(s.view, pod)), admitted := s.admitted + PodKeys(s.view, pod))
    ensures Linked(s')
  {
    forall k | k in PodKeys(s.view, pod) ensures SplitPVCKey(k) in s.view.claims {
      PodKeysNameClaims(s.view, pod, k);
    }
    hide ValidView, SplitPVCKey, CarvedBytes, PodKeys, SumMap;
  }

  lemma CarveKeepsLinks(s: State, pv: Name, bytes: nat, s': State)
    requires Linked(s) && pv in s.pvs && pv !in s.lvs && bytes == CarvedBytes(s.pvs[pv].capacity) <= Free(s)
    requires s' == s.(lvs := s.lvs[pv := bytes])
    ensures Linked(s')
  {
    hide ValidView, SplitPVCKey, CarvedBytes, SumMap;
    SumInsert(s.lvs, pv, bytes);
  }

  lemma CarveKeepsBacked(s: State, pv: Name, k: string, bytes: nat, s': State)
    requires BoundInv(s) && Backed(s) && Covered(s)
    requires pv in s.pvs && s.pvs[pv].bound && s.pvs[pv].claim == k && k in s.admitted && pv !in s.lvs
    requires s' == s.(lvs := s.lvs[pv := bytes])
    ensures Backed(s') && Covered(s')
  {
    hide Reserved, SumMap, Requests;
    SumInsert(s.lvs, pv, bytes);
    SumInsert(CarvedLedger(s), k, bytes);
    assert CarvedLedger(s') == CarvedLedger(s)[k := bytes];
  }

  lemma CollectKeepsLinks(s: State, pv: Name, s': State)
    requires Linked(s) && pv in s.lvs
    requires s' == s.(lvs := s.lvs - {pv})
    ensures Linked(s') && Free(s') >= Free(s)
  {
    hide ValidView, SplitPVCKey, CarvedBytes, SumMap;
    SumRemove(s.lvs, pv);
  }

  lemma GiBOfMiB(x: nat)
    ensures x / MIB / 1024 == x / GIB
  {
  }

  lemma SyncKeepsLinks(s: State)
    requires Linked(s)
    ensures Linked(Synced(s))
  {
    hide ValidView, SplitPVCKey, CarvedBytes, SumMap;
  }

  /** After a sync the recorded free size is backed by the real one alone. */
  lemma SyncKeepsBacked(s: State)
    requires Linked(s) && Backed(s)
    ensures Backed(Synced(s))
  {
    var s' := Synced(s);
    assert 0 <= Free(s) < TWO63;
    UncarvedFits(s);
    hide Linked, Backed, Reserved;
    ReservedMonotone(s.view, s'.status.preAllocated, s.status.preAllocated - CarvedLedger(s).Keys);
    GiBOfMiB(Free(s));
    assert CarvedLedger(s') == map[];
    BackedByFreeSpaceAlone(s');
  }

  lemma BackedByFreeSpaceAlone(s: State)
    requires CarvedLedger(s) == map[] && 0 <= Free(s) < TWO63
    requires s.status.freeSize == Free(s) / GIB
    requires Reserved(s.view, s.status.preAllocated) * GIB <= Free(s)
    ensures Backed(s)
  {
    hide Reserved;
  }

  /** A sync keeps the invariant if and only if every admitted claim that it sees bound is carved. */
  lemma SyncIsSafeExactlyWhenCarved(s: State)
    requires Inv(s)
    ensures Inv(Synced(s)) <==> BoundVolumesAreCarved(s)
  {
    SyncKeepsLinks(s);
    SyncKeepsBacked(s);
    hide Linked, Backed;
    assert forall k | k in s.admitted && k in s.boundTo && !Carved(s, k) :: k !in Synced(s).status.preAllocated;
  }

  /** The node once the agent has written what it computed from a measurement and a list of bound claims. */
  function Landed(s: State, vg: VGInfo, bound: set<string>): State {
    s.(status := Refreshed(s.status, vg, bound))
  }

  /** Nothing the agent prunes is still to be carved, what stays reserved fits the measurement, and the
      measurement is backed by the free space and the volumes of what stays reserved. */
  ghost predicate Lands(s: State, vg: VGInfo, bound: set<string>) {
    && (forall k | k in s.admitted && k in bound :: Carved(s, k))
    && Reserved(s.view, s.status.preAllocated - bound) <= vg.vgFree / 1024
    && vg.vgFree / 1024 * GIB <= Free(s) + SumMap(CarvedLedger(s) - bound)
  }

  lemma LandedCovered(s: State, vg: VGInfo, bound: set<string>)
    requires Covered(s)
    ensures Covered(Landed(s, vg, bound)) <==> forall k | k in s.admitted && k in bound :: Carved(s, k)
  {
    var s' := Landed(s, vg, bound);
    assert forall k | k in s.admitted && k in bound && !Carved(s, k) :: k !in s'.status.preAllocated;
  }

  /** Whenever the agent measured and listed, its write keeps the invariant if and only if it lands well. */
  lemma WriteIsSafeExactlyWhenItLands(s: State, vg: VGInfo, bound: set<string>)
    requires Inv(s) && vg.vgFree / 1024 < TWO64
    ensures Inv(Landed(s, vg, bound)) <==> Lands(s, vg, bound)
  {
    hide Linked, Covered, Backed, Reserved, SumMap, Carved;
    LandedLinks(s, vg, bound);
    LandedCovered(s, vg, bound);
    LandedBacked(s, vg, bound);
  }

  lemma LandedBacked(s: State, vg: VGInfo, bound: set<string>)
    requires vg.vgFree / 1024 < TWO64
    ensures Backed(Landed(s, vg, bound)) <==>
            && Reserved(s.view, s.status.preAllocated - bound) <= vg.vgFree / 1024
            && vg.vgFree / 1024 * GIB <= Free(s) + SumMap(CarvedLedger(s) - bound)
  {
    hide Reserved, SumMap;
    assert CarvedLedger(Landed(s, vg, bound)) == CarvedLedger(s) - bound;
  }

  lemma LandedLinks(s: State, vg: VGInfo, bound: set<string>)
    requires Linked(s)
    ensures Linked(Landed(s, vg, bound))
  {
    hide ValidView, SplitPVCKey, CarvedBytes, SumMap;
  }

  /** What is reserved and not carved fits this measurement. */
  ghost predicate RestFits(s: State, vg: VGInfo) {
    Reserved(s.view, s.status.preAllocated - CarvedLedger(s).Keys) <= vg.vgFree / 1024
  }

  /** For a list that shows every carved claim with a reservation, as a present one does, a write
      is safe if and only if every admitted claim it shows is carved and no more than fractions
      of a GiB were taken since the measurement. */
  lemma CompleteListLandsExactly(s: State, vg: VGInfo, bound: set<string>)
    requires RestFits(s, vg) && CarvedLedger(s).Keys <= bound
    ensures Lands(s, vg, bound) <==>
            (forall k | k in s.admitted && k in bound :: Carved(s, k)) && vg.vgFree / 1024 * GIB <= Free(s)
    ensures 0 <= Free(s) ==> (vg.vgFree / 1024 * GIB <= Free(s) <==> vg.vgFree / 1024 <= FloorGiB(Free(s)))
  {
    hide Reserved, Carved;
    ReservedMonotone(s.view, s.status.preAllocated - bound, s.status.preAllocated - CarvedLedger(s).Keys);
    assert CarvedLedger(s) - bound == map[];
  }

  /** The agent measures first and lists second. A measurement that is old when the list is made gives
      a safe write if and only if every admitted claim listed is carved, what stays reserved fits
      the measurement, and the group is still as free, in whole GiB. */
  lemma OldMeasurementIsSafeExactlyWhen(s: State, measured: nat)
    requires Inv(s) && measured < TWO63
    ensures Inv(Landed(s, VGInfo(s.total / MIB, measured / MIB), s.boundTo.Keys)) <==>
            && BoundVolumesAreCarved(s)
            && Reserved(s.view, s.status.preAllocated - s.boundTo.Keys) <= FloorGiB(measured) <= FloorGiB(Free(s))
  {
    assert 0 <= Free(s);
    GiBOfMiB(measured);
    hide Inv, Reserved, Carved;
    WriteIsSafeExactlyWhenItLands(s, VGInfo(s.total / MIB, measured / MIB), s.boundTo.Keys);
    CarvedIsBound(s);
  }

  lemma CarvedIsBound(s: State)
    ensures CarvedLedger(s).Keys <= s.boundTo.Keys && CarvedLedger(s) - s.boundTo.Keys == map[]
  {
  }

  /** An unknown volume is not carved, and an unbound one belongs to no claim. */
  lemma NamesAreFresh(s: State, pv: Name)
    requires GroupInv(s) && BoundInv(s)
    ensures pv !in s.pvs ==> pv !in s.lvs
    ensures pv in s.pvs && !s.pvs[pv].bound ==> forall k | k in s.boundTo :: s.boundTo[k] != pv
  {
    hide Requests, SumMap;
  }

  lemma ClaimRequests(view: View, id: ObjectKey)
    requires ValidView(view) && id in view.claims && view.claims[id].request.Some?
    ensures Requests(view, KeyOf(id), view.claims[id].request.value)
  {
    SplitInvertsMake(id.0, id.1);
  }

  /** Creating a claim keeps the invariant if and only if what its name still reserves is covered. */
  lemma CreateIsSafeExactlyWhenCovered(s: State, id: ObjectKey, claim: Claim)
    requires Inv(s) && Possible(s, CreateClaim(id, claim))
    ensures Inv(Apply(ClaimKeys, s, CreateClaim(id, claim))) <==> ReuseFits(s, id, claim)
  {
    var s' := Apply(ClaimKeys, s, CreateClaim(id, claim));
    CreateKeepsLinks(s, id, claim, s');
    assert CarvedLedger(s') == CarvedLedger(s);
    hide Linked, Backed, Reserved, CarvedLedger, MakePVCKey, SumMap;
    SameBacking(s, s');
  }

  /** Where record, group and carved claims stay, so does everything but the sum of the reservations. */
  lemma SameBacking(s: State, s': State)
    requires s'.status == s.status && Free(s') == Free(s) && CarvedLedger(s') == CarvedLedger(s) && Backed(s)
    ensures Backed(s') <==> Reserved(s'.view, s.status.preAllocated) <= s.status.freeSize
  {
    hide Reserved, SumMap, CarvedLedger;
  }

  lemma NewNameFits(s: State, id: ObjectKey, claim: Claim)
    requires Backed(s) && Possible(s, CreateClaim(id, claim)) && KeyOf(id) !in s.status.preAllocated
    ensures ReuseFits(s, id, claim)
  {
    hide Reserved;
    CreateReserves(s.view, id, claim, s.status.preAllocated);
  }

  lemma DeletedLedger(s: State, id: ObjectKey, s': State)
    requires Linked(s) && Possible(s, DeleteClaim(id)) && s' == Apply(ClaimKeys, s, DeleteClaim(id))
    ensures CarvedLedger(s') == CarvedLedger(s) - {KeyOf(id)}
    ensures KeyOf(id) !in CarvedLedger(s) ==> Balance(s') == Balance(s)
    ensures KeyOf(id) in CarvedLedger(s) ==> Balance(s') == Balance(s) - CarvedLedger(s)[KeyOf(id)]
  {
    hide Linked, SumMap, MakePVCKey, Unbound;
    var key, m := KeyOf(id), CarvedLedger(s);
    assert CarvedLedger(s') == m - {key};
    if key in m {
      SumRemove(m, key);
    } else {
      assert m - {key} == m;
    }
  }

  /** Deleting a claim keeps the invariant if and only if the recorded free size can do without the
      volume that was carved for its lingering key. */
  lemma DeleteIsSafeExactlyWhenSpare(s: State, id: ObjectKey)
    requires Inv(s) && Possible(s, DeleteClaim(id))
    ensures Inv(Apply(ClaimKeys, s, DeleteClaim(id))) <==> DeleteFits(s, id)
  {
    var s' := Apply(ClaimKeys, s, DeleteClaim(id));
    DeletedLedger(s, id, s');
    DeleteKeepsLinks(s, id, s');
    DeleteReserves(s.view, id, s.status.preAllocated);
    DeleteKeepsCovered(s, id, s');
    hide Linked, Covered, Reserved, CarvedLedger, Balance, MakePVCKey, Unbound;
  }

  lemma DeleteKeepsCovered(s: State, id: ObjectKey, s': State)
    requires Covered(s) && Possible(s, DeleteClaim(id)) && s' == Apply(ClaimKeys, s, DeleteClaim(id))
    ensures Covered(s')
  {
    hide MakePVCKey, Unbound;
  }

  lemma BindVolumeKeepsInv(s: State, id: ObjectKey, pv: Name, s': State)
    requires Inv(s) && Enabled(s, BindVolume(id, pv)) && s' == Apply(ClaimKeys, s, BindVolume(id, pv))
    ensures Inv(s')
  {
    hide GroupInv, BoundInv, AdmittedInv, ValidView, Backed, Covered, Reserved, SumMap, MakePVCKey, Requests;
    NamesAreFresh(s, pv);
    ClaimRequests(s.view, id);
    BindVolumeKeepsLinks(s, id, s.view.claims[id].request.value, pv, s');
    assert CarvedLedger(s') == CarvedLedger(s);
    QuietStepKeepsBacked(s, s');
  }

  lemma CollectKeepsInv(s: State, pv: Name, s': State)
    requires Inv(s) && Enabled(s, Collect(pv)) && s' == Apply(ClaimKeys, s, Collect(pv))
    ensures Inv(s')
  {
    hide GroupInv, BoundInv, AdmittedInv, Backed, Covered, Reserved, SumMap;
    NamesAreFresh(s, pv);
    CollectKeepsLinks(s, pv, s');
    assert CarvedLedger(s') == CarvedLedger(s);
    QuietStepKeepsBacked(s, s');
  }

  lemma AdmitKeepsInv(s: State, pod: Pod)
    requires Inv(s) && Room(s, pod)
    ensures Inv(Apply(ClaimKeys, s, Schedule(pod)))
  {
    var s' := Apply(ClaimKeys, s, Schedule(pod));
    hide Linked, Backed, Covered;
    ScheduleKeepsLinks(s, pod, s');
    ScheduleKeepsBacked(s, PodKeys(s.view, pod), s');
  }

  /** Every step keeps the invariant if and only if it meets its assumption. */
  lemma StepIsSafeExactlyWhenAssumed(s: State, e: Event)
    requires Inv(s) && Possible(s, e)
    ensures Inv(Apply(ClaimKeys, s, e)) <==> Assumed(s, e)
  {
    var s' := Apply(ClaimKeys, s, e);
    match e {
      case Schedule(pod) =>
        ScheduleReserves(s, pod);
        AdmitKeepsInv(s, pod);
      case Carve(pv) =>
        var bytes := CarvedBytes(s.pvs[pv].capacity);
        hide GroupInv, BoundInv, AdmittedInv, Backed, Covered;
        CarveKeepsLinks(s, pv, bytes, s');
        CarveKeepsBacked(s, pv, s.pvs[pv].claim, bytes, s');
      case Sync => SyncIsSafeExactlyWhenCarved(s);
      case CreateClaim(id, claim) => CreateIsSafeExactlyWhenCovered(s, id, claim);
      case DeleteClaim(id) => DeleteIsSafeExactlyWhenSpare(s, id);
      case BindVolume(id, pv) => BindVolumeKeepsInv(s, id, pv, s');
      case Collect(pv) => CollectKeepsInv(s, pv, s');
    }
  }

  // ------------------------------------------------------------ whole runs

  /** Everything the code may do. */
  ghost predicate PossibleRun(mode: BindMode, run: seq<State>, events: seq<Event>) {
    && |run| == |events| + 1
    && Initial(run[0])
    && forall i | 0 <= i < |events| :: Possible(run[i], events[i]) && run[i + 1] == Apply(mode, run[i], events[i])
  }

  /** ... under the assumptions. */
  ghost predicate IsRun(mode: BindMode, run: seq<State>, events: seq<Event>) {
    PossibleRun(mode, run, events) && forall i | 0 <= i < |events| :: Assumed(run[i], events[i])
  }

  lemma {:induction false} RunKeepsInv(run: seq<State>, events: seq<Event>, i: nat)
    requires IsRun(ClaimKeys, run, events) && i < |run|
    ensures Inv(run[i])
  {
    if i == 0 {
      assert Sizes(run[0].view, {}) == map[];
    } else {
      RunKeepsInv(run, events, i - 1);
      StepIsSafeExactlyWhenAssumed(run[i - 1], events[i - 1]);
    }
  }

  /** The bytes each admitted claim still has to get. */
  ghost function Due(s: State): map<string, nat> {
    map k | k in s.admitted && !Carved(s, k)
            && SplitPVCKey(k) in s.view.claims && s.view.claims[SplitPVCKey(k)].request.Some?
      :: CarvedBytes(s.view.claims[SplitPVCKey(k)].request.value)
  }

  ghost predicate Overcommitted(s: State) {
    SumMap(Due(s)) > Free(s)
  }

  lemma DueFits(s: State)
    requires Inv(s)
    ensures SumMap(Due(s)) <= Free(s)
  {
    var uncarved := s.status.preAllocated - CarvedLedger(s).Keys;
    var sizes := Sizes(s.view, uncarved);
    UncarvedFits(s);
    forall k | k in Due(s) ensures k in uncarved && Due(s)[k] <= sizes[k] * GIB {
      KeySizeCovers(s.view, k, s.view.claims[SplitPVCKey(k)].request.value);
    }
    hide Linked, Backed, KeySize;
    SumOfCarvedFits(Due(s), sizes);
  }

  ghost predicate Safe(s: State) {
    && Reserved(s.view, s.status.preAllocated) <= s.status.freeSize
    && NodeFreeSize(s.view, s.status.freeSize, s.status.preAllocated)
       == s.status.freeSize - Reserved(s.view, s.status.preAllocated)
    && !Overcommitted(s)
    && forall k | k in Due(s) :: Due(s)[k] <= Free(s)
  }

  lemma InvHasView(s: State)
    requires Inv(s)
    ensures ValidView(s.view)
  {
  }

  lemma InvIsSafe(s: State)
    requires Inv(s)
    ensures Safe(s)
  {
    hide Linked, Covered, Reserved, Due, SumMap;
    DueFits(s);
    forall k | k in Due(s) ensures Due(s)[k] <= Free(s) {
      ElementWithinSum(Due(s), k);
    }
  }

  /** In every run in which binds insert the claim keys: the reservations never exceed the recorded
      free size, the scheduler's subtraction never wraps around, and the volumes still due to all
      admitted claims fit the real free space together, so that each next carve succeeds. */
  lemma ReservationSafety(run: seq<State>, events: seq<Event>, i: nat)
    requires IsRun(ClaimKeys, run, events) && i < |run|
    ensures Safe(run[i])
  {
    hide Inv, Safe;
    RunKeepsInv(run, events, i);
    InvIsSafe(run[i]);
  }

  /** A bind, whatever its filter saw, keeps the node safe if and only if there is room when it writes. */
  lemma BindIsSafeExactlyWhenRoom(s: State, pod: Pod)
    requires Inv(s)
    ensures Safe(Apply(ClaimKeys, s, Schedule(pod))) <==> Room(s, pod)
    ensures Inv(Apply(ClaimKeys, s, Schedule(pod))) <==> Room(s, pod)
  {
    hide Linked, Covered, Overcommitted, NodeFreeSize, Reserved, Apply, Inv, Safe;
    var s' := Apply(ClaimKeys, s, Schedule(pod));
    if Room(s, pod) {
      AdmitKeepsInv(s, pod);
      InvIsSafe(s');
    } else {
      NoRoomIsUnsafe(s, pod);
      if Inv(s') {
        InvIsSafe(s');
      }
    }
  }

  lemma NoRoomIsUnsafe(s: State, pod: Pod)
    requires !Room(s, pod)
    ensures !Safe(Apply(ClaimKeys, s, Schedule(pod)))
  {
    hide Reserved, Overcommitted, PodKeys, NodeFreeSize, Due;
  }
}
