/** Runs that end with more admitted than the node has, or with a free size that wrapped around: what
    each assumption of the reservation runs keeps out, and what the bind loop as written lets in. */
module Overcommit {
  import opened Wrappers
  import opened Keys
  import opened Sums
  import opened Rounding
  import opened Scheduler
  import opened LocalVolumes
  import opened Reservation

  const TEN_GIB := 10 * GIB

  /** Two claims of ten GiB each, and a node with ten GiB. */
  const VIEW := View(map[("d", "a") := Claim(Some("c"), Some(TEN_GIB)), ("d", "b") := Claim(Some("c"), Some(TEN_GIB))],
                     map["c" := DRIVER_NAME])
  const START := State(VIEW, TEN_GIB, map[], map[], map[], Status(0, 0, {}), {})

  function PodOf(name: string): Pod {
    Pod("d", [Some(name)])
  }

  function Key(name: string): string {
    MakePVCKey("d", name)
  }

  /** The view has a claim of ten GiB for the driver under this name. */
  predicate Offers(view: View, name: string) {
    && (name == "a" || name == "b")
    && ("d", name) in view.claims && view.claims[("d", name)] == Claim(Some("c"), Some(TEN_GIB))
    && view.classes == map["c" := DRIVER_NAME]
  }

  lemma SizeOfTen()
    ensures SizeInGiB(TEN_GIB) == 10 && CarvedBytes(TEN_GIB) == TEN_GIB
  {
    assert ExcessBits(TEN_GIB) == 0;
  }

  lemma NamesDiffer()
    ensures Key("a") != Key("b") && Key("a") != "" && Key("b") != ""
    ensures SplitPVCKey(Key("a")) == ("d", "a") && SplitPVCKey(Key("b")) == ("d", "b")
    ensures ValidView(VIEW) && Offers(VIEW, "a") && Offers(VIEW, "b")
  {
    assert Key("a")[2] == 'a' && Key("b")[2] == 'b';
    SplitInvertsMake("d", "a");
    SplitInvertsMake("d", "b");
  }

  lemma OneVolume(view: View, name: string)
    requires Offers(view, name)
    ensures PodKeys(view, PodOf(name)) == {Key(name)}
    ensures RequestSize(view, PodOf(name)) == 10
    ensures KeySize(view, Key(name)) == 10
  {
    SizeOfTen();
    NamesDiffer();
    var volumes := [Some(name)];
    assert volumes[..0] == [];
    assert IsDriverClaim(view, "d", name);
    assert DriverKeys(view, "d", volumes) == DriverKeys(view, "d", volumes[..0]) + {Key(name)};
    assert RequestSum(view, "d", volumes) == RequestSum(view, "d", volumes[..0]) + 10;
  }

  // ------------------------------------------------------------ what is due

  lemma OneDue(s: State, name: string)
    requires Offers(s.view, name) && s.admitted == {Key(name)} && s.boundTo == map[]
    ensures SumMap(Due(s)) == TEN_GIB
  {
    NamesDiffer();
    SizeOfTen();
    hide CarvedBytes, SplitPVCKey, SumMap, MakePVCKey;
    var none: map<string, nat> := map[];
    assert Due(s) == none[Key(name) := TEN_GIB];
    SumInsert(none, Key(name), TEN_GIB);
    SumOfNone(none);
  }

  lemma TwoDue(s: State)
    requires Offers(s.view, "a") && Offers(s.view, "b") && s.admitted == {Key("a"), Key("b")} && s.lvs == map[]
    ensures SumMap(Due(s)) == 2 * TEN_GIB
  {
    NamesDiffer();
    SizeOfTen();
    hide CarvedBytes, SplitPVCKey, SumMap, MakePVCKey;
    var none: map<string, nat> := map[];
    assert Due(s) == none[Key("a") := TEN_GIB][Key("b") := TEN_GIB];
    SumInsert(none, Key("a"), TEN_GIB);
    SumInsert(none[Key("a") := TEN_GIB], Key("b"), TEN_GIB);
    SumOfNone(none);
  }

  lemma SumOfNone(m: map<string, nat>)
    requires m == map[]
    ensures SumMap(m) == 0
  {
  }

  /** Once both pods are admitted and nothing is carved, twenty GiB are due from ten. */
  lemma BothAdmitted(s: State)
    requires s.view == VIEW && s.total == TEN_GIB && s.lvs == map[] && s.admitted == {Key("a"), Key("b")}
    ensures Overcommitted(s)
  {
    NamesDiffer();
    TwoDue(s);
  }

  // ------------------------------------------------------- steps of the runs

  lemma Refresh(s: State)
    requires s.total == TEN_GIB && s.lvs == map[] && s.status.preAllocated <= s.boundTo.Keys
    ensures Synced(s).status == Status(10, 10, {})
  {
    GiBOfMiB(TEN_GIB);
    assert s.status.preAllocated - s.boundTo.Keys == {};
  }

  lemma FirstSync(mode: BindMode)
    ensures Initial(START) && Enabled(START, Sync) && Apply(mode, START, Sync) == Synced(START)
    ensures Synced(START).status == Status(10, 10, {})
  {
    NamesDiffer();
    Refresh(START);
  }

  function Admit(s: State, name: string, key: string): State {
    s.(status := WithKeys(s.status, {key}), admitted := s.admitted + {Key(name)})
  }

  /** A pod is admitted whenever the ledger's keys name no claim. */
  lemma AdmitStep(mode: BindMode, s: State, name: string)
    requires Offers(s.view, name) && s.status.freeSize == 10 && Reserved(s.view, s.status.preAllocated) == 0
    ensures Possible(s, Schedule(PodOf(name))) && Assumed(s, Schedule(PodOf(name)))
    ensures Apply(mode, s, Schedule(PodOf(name))) == Admit(s, name, if mode == ClaimKeys then Key(name) else "")
  {
    OneVolume(s.view, name);
    hide Reserved, MakePVCKey, DriverKeys, RequestSum;
  }

  lemma NothingReserved(view: View, ledger: set<string>, key: string)
    requires ledger <= {key} && KeySize(view, key) == 0
    ensures Reserved(view, ledger) == 0
  {
    assert Sizes(view, {}) == map[];
    ReservedInsert(view, {}, key);
    assert ledger == {} || ledger == {} + {key};
  }

  lemma EmptyKeyIsFree(view: View)
    requires ("", "") !in view.claims
    ensures KeySize(view, "") == 0
  {
    OtherKeysSplitToNothing("");
  }

  // ------------------------------------------------------------------- runs

  /** As written, two pods that each ask for the whole node are both admitted, in a run that meets
      every assumption. */
  lemma AsWrittenOvercommits() returns (run: seq<State>, events: seq<Event>)
    ensures IsRun(MapValues, run, events) && Overcommitted(run[|run| - 1])
  {
    hide Possible, Assumed, Apply, Initial, Overcommitted, Reserved, KeySize, Offers;
    FirstSync(MapValues);
    NamesDiffer();
    EmptyKeyIsFree(VIEW);
    var s1 := Synced(START);
    NothingReserved(VIEW, s1.status.preAllocated, "");
    AdmitStep(MapValues, s1, "a");
    var s2 := Admit(s1, "a", "");
    NothingReserved(VIEW, s2.status.preAllocated, "");
    AdmitStep(MapValues, s2, "b");
    var s3 := Admit(s2, "b", "");
    run, events := [START, s1, s2, s3], [Sync, Schedule(PodOf("a")), Schedule(PodOf("b"))];
    BothAdmitted(s3);
  }

  /** The first pod's claim bound to a volume, then carved, then deleted. */
  const BOUND := START.(status := Status(10, 10, {Key("a")}), admitted := {Key("a")},
                        pvs := map[0 := PV(Key("a"), TEN_GIB, true)], boundTo := map[Key("a") := 0])
  const CARVED := BOUND.(lvs := map[0 := TEN_GIB])
  const DELETED := START.(view := VIEW.(claims := VIEW.claims - {("d", "a")}),
                          status := Status(10, 10, {Key("a")}),
                          pvs := map[0 := PV(Key("a"), TEN_GIB, false)], lvs := map[0 := TEN_GIB])

  lemma BindStep(s: State)
    requires s == BOUND.(pvs := map[], boundTo := map[])
    ensures Enabled(s, BindVolume(("d", "a"), 0)) && Apply(ClaimKeys, s, BindVolume(("d", "a"), 0)) == BOUND
  {
    hide MakePVCKey;
  }

  /** A run in which every step but number `bad` meets the assumptions. */
  ghost predicate RunBut(bad: int, run: seq<State>, events: seq<Event>) {
    && PossibleRun(ClaimKeys, run, events)
    && forall i | 0 <= i < |events| && i != bad :: Assumed(run[i], events[i])
  }

  /** The first pod admitted with its claim key, and its volume bound. */
  lemma BoundNotCarved(bad: int) returns (run: seq<State>, events: seq<Event>)
    ensures RunBut(bad, run, events) && |run| == 4 && |events| == 3 && run[3] == BOUND
  {
    hide Possible, Assumed, Apply, RunBut, MakePVCKey;
    run, events := FirstAdmitted(bad);
    BindStep(run[2]);
    Extend(bad, run, events, BindVolume(("d", "a"), 0), BOUND);
    run, events := run + [BOUND], events + [BindVolume(("d", "a"), 0)];
  }

  lemma Extend(bad: int, run: seq<State>, events: seq<Event>, e: Event, s': State)
    requires RunBut(bad, run, events)
    requires Possible(run[|events|], e) && Apply(ClaimKeys, run[|events|], e) == s'
    requires |events| == bad || Assumed(run[|events|], e)
    ensures RunBut(bad, run + [s'], events + [e])
  {
    hide Possible, Assumed, Apply, Initial;
  }

  /** With claim keys, a sync that sees the first pod's volume bound but not yet carved drops its
      reservation, and the second pod is admitted to the same space. Every other step meets the
      assumptions. */
  lemma SyncBeforeCarveOvercommits() returns (run: seq<State>, events: seq<Event>)
    ensures RunBut(3, run, events) && Overcommitted(run[|run| - 1])
  {
    hide Possible, Assumed, Apply, RunBut, Overcommitted, Reserved, KeySize, Offers, MakePVCKey;
    run, events := BoundNotCarved(3);
    NamesDiffer();
    EmptyKeyIsFree(VIEW);
    Refresh(BOUND);
    SyncStep(BOUND);
    var s := Synced(BOUND);
    Extend(3, run, events, Sync, s);
    run, events := run + [s], events + [Sync];
    NothingReserved(VIEW, s.status.preAllocated, "");
    AdmitStep(ClaimKeys, s, "b");
    var t := Admit(s, "b", Key("b"));
    Extend(3, run, events, Schedule(PodOf("b")), t);
    run, events := run + [t], events + [Schedule(PodOf("b"))];
    BothAdmitted(t);
  }

  lemma SyncStep(s: State)
    ensures Possible(s, Sync) && Apply(ClaimKeys, s, Sync) == Synced(s)
  {
  }

  lemma CarveStep(s: State)
    requires s == CARVED.(lvs := map[])
    ensures Enabled(s, Carve(0)) && Apply(ClaimKeys, s, Carve(0)) == CARVED
  {
    SizeOfTen();
    hide MakePVCKey, CarvedBytes, SumMap;
    SumOfNoVolumes(s.lvs);
    assert map[][0 := TEN_GIB] == map[0 := TEN_GIB];
  }

  lemma SumOfNoVolumes(m: map<Name, nat>)
    requires m == map[]
    ensures SumMap(m) == 0 && SumMap(m[0 := TEN_GIB]) == TEN_GIB
  {
    SumInsert(m, 0, TEN_GIB);
  }

  lemma DeleteStep()
    ensures Possible(CARVED, DeleteClaim(("d", "a"))) && Apply(ClaimKeys, CARVED, DeleteClaim(("d", "a"))) == DELETED
    ensures Offers(DELETED.view, "b") && KeySize(DELETED.view, Key("a")) == 0
  {
    NamesDiffer();
    hide MakePVCKey, SplitPVCKey;
    assert CARVED.boundTo - {Key("a")} == map[];
    assert CARVED.admitted - {Key("a")} == {};
  }

  lemma DeletedIsFull(s: State)
    requires Offers(s.view, "b") && s.admitted == {Key("b")} && s.boundTo == map[]
    requires s.total == TEN_GIB && s.lvs == map[0 := TEN_GIB]
    ensures Overcommitted(s)
  {
    hide Offers, MakePVCKey, Due, SumMap;
    OneDue(s, "b");
    SumOfNoVolumes(map[]);
    assert map[][0 := TEN_GIB] == map[0 := TEN_GIB];
  }

  /** Deleting a carved claim while its key is in the ledger frees a reservation whose space the
      collector has not given back yet. */
  lemma DeleteWhileKeyLingersOvercommits() returns (run: seq<State>, events: seq<Event>)
    ensures RunBut(4, run, events) && Overcommitted(run[|run| - 1])
  {
    hide Possible, Assumed, Apply, RunBut, Overcommitted, Reserved, KeySize, Offers, MakePVCKey;
    run, events := BoundNotCarved(4);
    CarveStep(BOUND);
    Extend(4, run, events, Carve(0), CARVED);
    run, events := run + [CARVED], events + [Carve(0)];
    DeleteStep();
    Extend(4, run, events, DeleteClaim(("d", "a")), DELETED);
    run, events := run + [DELETED], events + [DeleteClaim(("d", "a"))];
    NothingReserved(DELETED.view, {Key("a")}, Key("a"));
    AdmitStep(ClaimKeys, DELETED, "b");
    var t := Admit(DELETED, "b", Key("b"));
    Extend(4, run, events, Schedule(PodOf("b")), t);
    run, events := run + [t], events + [Schedule(PodOf("b"))];
    DeletedIsFull(t);
  }

  // ------------------------------------------------------------ reservations

  lemma OneReserved(name: string)
    requires Offers(VIEW, name)
    ensures Reserved(VIEW, {}) == 0 && Reserved(VIEW, {Key(name)}) == 10
  {
    hide *;
    NamesDiffer();
    OneVolume(VIEW, name);
    EmptyKeyIsFree(VIEW);
    NothingReserved(VIEW, {}, "");
    ReservedInsert(VIEW, {}, Key(name));
    assert {} + {Key(name)} == {Key(name)};
  }

  lemma BothReserved()
    ensures Reserved(VIEW, {Key("a"), Key("b")}) == 20
  {
    hide *;
    NamesDiffer();
    OneReserved("a");
    OneVolume(VIEW, "b");
    ReservedInsert(VIEW, {Key("a")}, Key("b"));
    assert {Key("a")} + {Key("b")} == {Key("a"), Key("b")};
  }

  /** Volume "a" is carved and "b" still due. */
  lemma OneLeft(s: State)
    requires s.view == VIEW && s.total == TEN_GIB && s.lvs == CARVED.lvs && s.boundTo == CARVED.boundTo
    requires s.admitted == {Key("a"), Key("b")}
    ensures Overcommitted(s)
  {
    NamesDiffer();
    SizeOfTen();
    hide CarvedBytes, SplitPVCKey, SumMap, MakePVCKey;
    var none: map<string, nat> := map[];
    assert Due(s) == none[Key("b") := TEN_GIB];
    SumInsert(none, Key("b"), TEN_GIB);
    SumOfNone(none);
    SumOfNoVolumes(map[]);
    assert map[][0 := TEN_GIB] == map[0 := TEN_GIB];
  }

  // ------------------------------------------------------------ a name used again

  /** The first pod admitted, and its claim deleted before it was bound. */
  const LINGERING := START.(view := VIEW.(claims := VIEW.claims - {("d", "a")}), status := Status(10, 10, {Key("a")}))

  const CLAIM := Claim(Some("c"), Some(TEN_GIB))

  lemma DeleteUncarvedStep(s: State)
    requires s == START.(status := Status(10, 10, {Key("a")}), admitted := {Key("a")})
    ensures Enabled(s, DeleteClaim(("d", "a"))) && Apply(ClaimKeys, s, DeleteClaim(("d", "a"))) == LINGERING
    ensures Offers(LINGERING.view, "b") && KeySize(LINGERING.view, Key("a")) == 0
  {
    NamesDiffer();
    hide MakePVCKey, SplitPVCKey;
    assert s.boundTo - {Key("a")} == map[];
    assert s.admitted - {Key("a")} == {};
  }

  lemma CreateAgainStep(s: State)
    requires s.view == LINGERING.view
    ensures Possible(s, CreateClaim(("d", "a"), CLAIM))
    ensures Apply(ClaimKeys, s, CreateClaim(("d", "a"), CLAIM)) == s.(view := VIEW)
  {
    assert (VIEW.claims - {("d", "a")})[("d", "a") := CLAIM] == VIEW.claims;
  }

  /** A claim created under a name whose key is still in the ledger takes the reservations past the
      recorded free size, and the subtraction wraps around. Every other step meets the assumptions. */
  lemma NameUsedAgainWraps() returns (run: seq<State>, events: seq<Event>)
    ensures RunBut(4, run, events)
    ensures var s := run[|run| - 1]; NodeFreeSize(s.view, s.status.freeSize, s.status.preAllocated) == TWO64 - 10
  {
    hide Possible, Assumed, Apply, Initial, RunBut, Reserved, KeySize, Offers, MakePVCKey, SplitPVCKey, ValidView, Key;
    run, events := FirstAdmitted(4);
    DeleteUncarvedStep(run[2]);
    Extend(4, run, events, DeleteClaim(("d", "a")), LINGERING);
    run, events := run + [LINGERING], events + [DeleteClaim(("d", "a"))];
    NothingReserved(LINGERING.view, {Key("a")}, Key("a"));
    AdmitStep(ClaimKeys, LINGERING, "b");
    var t := Admit(LINGERING, "b", Key("b"));
    Extend(4, run, events, Schedule(PodOf("b")), t);
    run, events := run + [t], events + [Schedule(PodOf("b"))];
    CreateAgainStep(t);
    var u := t.(view := VIEW);
    Extend(4, run, events, CreateClaim(("d", "a"), CLAIM), u);
    run, events := run + [u], events + [CreateClaim(("d", "a"), CLAIM)];
    assert {Key("a")} + {Key("b")} == {Key("a"), Key("b")};
    BothReserved();
  }

  lemma FirstAdmitted(bad: int) returns (run: seq<State>, events: seq<Event>)
    ensures RunBut(bad, run, events) && |run| == 3 && |events| == 2
    ensures run[2] == START.(status := Status(10, 10, {Key("a")}), admitted := {Key("a")})
  {
    hide Possible, Assumed, Apply, Initial, Reserved, KeySize, Offers, MakePVCKey, SplitPVCKey, ValidView;
    FirstSync(ClaimKeys);
    NamesDiffer();
    EmptyKeyIsFree(VIEW);
    var s1 := Synced(START);
    NothingReserved(VIEW, s1.status.preAllocated, "");
    AdmitStep(ClaimKeys, s1, "a");
    run, events := [START, s1, Admit(s1, "a", Key("a"))], [Sync, Schedule(PodOf("a"))];
  }
}
