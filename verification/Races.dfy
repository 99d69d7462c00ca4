/** Interleavings of filter, bind, measurement and list that fail. In each run every step but one meets
    the assumptions. */
module Races {
  import opened Wrappers
  import opened Keys
  import opened Sums
  import opened Rounding
  import opened Scheduler
  import opened LocalVolumes
  import opened Overcommit
  import opened Interleaving
  import Reservation

  /** A run in which every step but number `bad` meets the assumptions. */
  ghost predicate RaceRun(bad: int, run: seq<Interleaving.State>, events: seq<Interleaving.Event>) {
    && Interleaving.PossibleRun(ClaimKeys, run, events)
    && forall i | 0 <= i < |events| && i != bad :: Interleaving.Assumed(run[i], events[i])
  }

  lemma Continue(bad: int, run: seq<Interleaving.State>, events: seq<Interleaving.Event>,
                 e: Interleaving.Event, s': Interleaving.State)
    requires RaceRun(bad, run, events)
    requires Interleaving.Possible(run[|events|], e) && Interleaving.Apply(ClaimKeys, run[|events|], e) == s'
    requires |events| == bad || Interleaving.Assumed(run[|events|], e)
    ensures RaceRun(bad, run + [s'], events + [e]) && |run + [s']| == |events + [e]| + 1
  {
    hide Interleaving.Possible, Interleaving.Assumed, Interleaving.Apply, Interleaving.Initial;
  }

  // ------------------------------------------------------------------- steps

  lemma MeasureStep(s: Interleaving.State, vg: VGInfo)
    requires Reservation.Group(s.node) == vg
    ensures Interleaving.Possible(s, Measure(s.version)) && Interleaving.Assumed(s, Measure(s.version))
    ensures Interleaving.Apply(ClaimKeys, s, Measure(s.version)) == s.(sync := Some(Measured(s.version, vg)))
  {
    hide Reservation.Group;
  }

  lemma ListStep(s: Interleaving.State, vg: VGInfo, bound: set<string>)
    requires s.sync == Some(Measured(s.version, vg)) && bound in s.lists
    ensures Interleaving.Possible(s, List(bound))
    ensures Interleaving.Apply(ClaimKeys, s, List(bound)) == s.(sync := Some(Listed(s.version, vg, bound)))
    ensures Reservation.Lands(s.node, vg, bound) ==> Interleaving.Assumed(s, List(bound))
  {
    hide Reservation.Lands;
  }

  lemma WriteStep(s: Interleaving.State, vg: VGInfo, bound: set<string>, status: Status)
    requires s.sync == Some(Listed(s.version, vg, bound))
    requires status == Refreshed(s.node.status, vg, bound) != s.node.status
    ensures Interleaving.Possible(s, WriteBack) && Interleaving.Assumed(s, WriteBack)
    ensures Interleaving.Apply(ClaimKeys, s, WriteBack)
            == s.(node := s.node.(status := status), version := s.version + 1, sync := None)
  {
  }

  lemma FilterStep(s: Interleaving.State, name: string)
    requires Offers(s.node.view, name) && s.node.status.freeSize == 10
    requires Reserved(s.node.view, s.node.status.preAllocated) == 0
    ensures Interleaving.Possible(s, Filter(PodOf(name))) && Interleaving.Assumed(s, Filter(PodOf(name)))
    ensures Interleaving.Apply(ClaimKeys, s, Filter(PodOf(name))) == s
  {
    hide Reservation.Possible, Offers, Reserved;
    AdmitStep(ClaimKeys, s.node, name);
  }

  lemma PodBindStep(s: Interleaving.State, name: string)
    requires Offers(s.node.view, name) && s.sync == None && Key(name) !in s.node.status.preAllocated
    ensures Interleaving.Possible(s, Bind(PodOf(name)))
    ensures Interleaving.Apply(ClaimKeys, s, Bind(PodOf(name)))
            == s.(node := Admit(s.node, name, Key(name)), version := s.version + 1)
    ensures Reserved(s.node.view, s.node.status.preAllocated + {Key(name)}) <= s.node.status.freeSize ==>
              Interleaving.Assumed(s, Bind(PodOf(name)))
  {
    OneVolume(s.node.view, name);
    hide Offers, Reserved, PodKeys, Key, PodOf;
    assert Key(name) in Admit(s.node, name, Key(name)).status.preAllocated;
  }

  lemma NodeStep(s: Interleaving.State, e: Reservation.Event, node: Reservation.State)
    requires (e.BindVolume? || e.Carve?) && Reservation.Possible(s.node, e)
    requires Reservation.Apply(ClaimKeys, s.node, e) == node
    ensures Interleaving.Possible(s, NodeEvent(e)) && Interleaving.Assumed(s, NodeEvent(e))
    ensures Interleaving.Apply(ClaimKeys, s, NodeEvent(e)) == s.(node := node, lists := s.lists + {node.boundTo.Keys})
  {
    hide Reservation.Possible, Reservation.Apply;
  }

  /** A pod is filtered and bound at once. */
  lemma FilterAndBind(bad: int, run: seq<Interleaving.State>, events: seq<Interleaving.Event>, name: string)
    returns (run': seq<Interleaving.State>, events': seq<Interleaving.Event>)
    requires RaceRun(bad, run, events) && |run| == |events| + 1
    requires var s := run[|events|];
             && Offers(s.node.view, name) && s.node.status.freeSize == 10 && s.node.status.preAllocated == {}
             && s.sync == None && Reserved(s.node.view, {}) == 0 && Reserved(s.node.view, {Key(name)}) == 10
    ensures RaceRun(bad, run', events') && |run'| == |events'| + 1 && |events'| == |events| + 2
    ensures var s := run[|events|];
            run'[|events'|] == s.(node := Admit(s.node, name, Key(name)), version := s.version + 1)
  {
    hide Interleaving.Possible, Interleaving.Assumed, Interleaving.Apply, RaceRun, Reserved, Offers, PodOf, Key;
    var s := run[|events|];
    FilterStep(s, name);
    Continue(bad, run, events, Filter(PodOf(name)), s);
    run', events' := run + [s], events + [Filter(PodOf(name))];
    assert {} + {Key(name)} == {Key(name)};
    PodBindStep(s, name);
    var u := s.(node := Admit(s.node, name, Key(name)), version := s.version + 1);
    Continue(bad, run', events', Bind(PodOf(name)), u);
    run', events' := run' + [u], events' + [Bind(PodOf(name))];
  }

  // ----------------------------------------------------------------- prefixes

  const EMPTY_GROUP := VGInfo(10 * 1024, 10 * 1024)
  const FULL_GROUP := VGInfo(10 * 1024, 0)

  lemma Groups(node: Reservation.State)
    requires node.total == TEN_GIB
    ensures node.lvs == map[] ==> Reservation.Group(node) == EMPTY_GROUP && Reservation.Free(node) == TEN_GIB
    ensures node.lvs == CARVED.lvs ==> Reservation.Group(node) == FULL_GROUP && Reservation.Free(node) == 0
  {
    SumOfNoVolumes(map[]);
    assert map[][0 := TEN_GIB] == map[0 := TEN_GIB];
  }

  lemma FirstListLands()
    ensures Reservation.Lands(START, EMPTY_GROUP, {})
  {
    NamesDiffer();
    OneReserved("a");
    Groups(START);
    hide Reserved, Reservation.Free, Offers, SumMap;
    assert START.status.preAllocated - {} == {};
    assert Reservation.CarvedLedger(START) == map[];
  }

  const SYNCED := START.(status := Status(10, 10, {}))

  /** A registered node whose record the agent has brought up to date once. */
  lemma SyncedOnce(bad: int) returns (run: seq<Interleaving.State>, events: seq<Interleaving.Event>)
    requires bad >= 3
    ensures RaceRun(bad, run, events) && |run| == |events| + 1 && |events| == 3
    ensures run[3] == Interleaving.State(SYNCED, 1, None, {{}})
  {
    Started();
    FirstListLands();
    Groups(START);
    hide Interleaving.Possible, Interleaving.Assumed, Interleaving.Apply, Reservation.Lands, Reservation.Group, Key;
    var s0 := Interleaving.State(START, 0, None, {{}});
    run, events := [s0], [];
    MeasureStep(s0, EMPTY_GROUP);
    var s1 := s0.(sync := Some(Measured(0, EMPTY_GROUP)));
    Continue(bad, run, events, Measure(0), s1);
    run, events := run + [s1], events + [Measure(0)];
    ListStep(s1, EMPTY_GROUP, {});
    var s2 := s1.(sync := Some(Listed(0, EMPTY_GROUP, {})));
    Continue(bad, run, events, List({}), s2);
    run, events := run + [s2], events + [List({})];
    WriteStep(s2, EMPTY_GROUP, {}, SYNCED.status);
    var s3 := Interleaving.State(SYNCED, 1, None, {{}});
    Continue(bad, run, events, WriteBack, s3);
    run, events := run + [s3], events + [WriteBack];
  }

  lemma Started()
    ensures Reservation.Initial(START)
  {
    FirstSync(ClaimKeys);
  }

  /** The first pod filtered and bound, and its claim bound to a volume. */
  lemma BoundOnce(bad: int) returns (run: seq<Interleaving.State>, events: seq<Interleaving.Event>)
    requires bad >= 6
    ensures RaceRun(bad, run, events) && |run| == |events| + 1 && |events| == 6
    ensures run[6] == Interleaving.State(BOUND, 2, None, {{}, {Key("a")}})
  {
    hide SplitPVCKey, ValidView, MakePVCKey, Interleaving.Possible, Interleaving.Assumed, Interleaving.Apply,
         RaceRun, Reserved, Offers, PodOf, Key, Reservation.Possible, Reservation.Apply;
    NamesDiffer();
    OneReserved("a");
    run, events := SyncedOnce(bad);
    run, events := FilterAndBind(bad, run, events, "a");
    var s5 := run[5];
    BindStep(s5.node);
    var e := Reservation.BindVolume(("d", "a"), 0);
    NodeStep(s5, e, BOUND);
    assert BOUND.boundTo.Keys == {Key("a")};
    var s6 := Interleaving.State(BOUND, 2, None, {{}, {Key("a")}});
    Continue(bad, run, events, NodeEvent(e), s6);
    run, events := run + [s6], events + [NodeEvent(e)];
  }

  // -------------------------------------------------------------------- races

  /** When both pods pass the filter before either is bound, the second bind takes the ledger past the
      recorded free size, and the subtraction wraps around to more than any node has. */
  lemma FilterBeforeBothBindsWraps() returns (run: seq<Interleaving.State>, events: seq<Interleaving.Event>)
    ensures RaceRun(6, run, events)
    ensures var node := run[|run| - 1].node;
            NodeFreeSize(node.view, node.status.freeSize, node.status.preAllocated) == TWO64 - 10
  {
    hide SplitPVCKey, ValidView, MakePVCKey, Interleaving.Possible, Interleaving.Assumed, Interleaving.Apply,
         RaceRun, Reserved, Offers, PodOf, Key;
    NamesDiffer();
    OneReserved("a");
    run, events := SyncedOnce(6);
    var s3 := run[3];
    FilterStep(s3, "a");
    Continue(6, run, events, Filter(PodOf("a")), s3);
    run, events := run + [s3], events + [Filter(PodOf("a"))];
    FilterStep(s3, "b");
    Continue(6, run, events, Filter(PodOf("b")), s3);
    run, events := run + [s3], events + [Filter(PodOf("b"))];
    assert {} + {Key("a")} == {Key("a")};
    PodBindStep(s3, "a");
    var s6 := s3.(node := Admit(SYNCED, "a", Key("a")), version := 2);
    Continue(6, run, events, Bind(PodOf("a")), s6);
    run, events := run + [s6], events + [Bind(PodOf("a"))];
    PodBindStep(s6, "b");
    var s7 := s6.(node := Admit(s6.node, "b", Key("b")), version := 3);
    Continue(6, run, events, Bind(PodOf("b")), s7);
    run, events := run + [s7], events + [Bind(PodOf("b"))];
    BothReserved();
    assert {} + {Key("a")} + {Key("b")} == {Key("a"), Key("b")};
    NoneLeft(s7.node, 20);
  }

  lemma NoneLeft(node: Reservation.State, reserved: nat)
    requires Reserved(node.view, node.status.preAllocated) == reserved && reserved == node.status.freeSize + 10
    ensures NodeFreeSize(node.view, node.status.freeSize, node.status.preAllocated) == TWO64 - 10
  {
    hide Reserved;
  }

  /** The agent measures the group first and lists the volumes second. If the first volume is carved in
      between, its space is taken for free although its reservation goes, and the second pod is
      admitted to it. */
  lemma MeasuredBeforeCarveListedAfter() returns (run: seq<Interleaving.State>, events: seq<Interleaving.Event>)
    ensures RaceRun(8, run, events) && Reservation.Overcommitted(run[|run| - 1].node)
  {
    hide SplitPVCKey, ValidView, MakePVCKey, Interleaving.Possible, Interleaving.Assumed, Interleaving.Apply,
         RaceRun, Reserved, Offers, PodOf, Key, Reservation.Possible, Reservation.Apply, Reservation.Group,
         Reservation.Overcommitted, Reservation.Lands;
    NamesDiffer();
    OneReserved("b");
    Groups(BOUND);
    run, events := BoundOnce(8);
    var s6 := run[6];
    MeasureStep(s6, EMPTY_GROUP);
    var s7 := s6.(sync := Some(Measured(2, EMPTY_GROUP)));
    Continue(8, run, events, Measure(2), s7);
    run, events := run + [s7], events + [Measure(2)];
    CarveStep(BOUND);
    NodeStep(s7, Reservation.Carve(0), CARVED);
    assert CARVED.boundTo.Keys == {Key("a")};
    var s8 := s7.(node := CARVED);
    Continue(8, run, events, NodeEvent(Reservation.Carve(0)), s8);
    run, events := run + [s8], events + [NodeEvent(Reservation.Carve(0))];
    ListStep(s8, EMPTY_GROUP, {Key("a")});
    var s9 := s8.(sync := Some(Listed(2, EMPTY_GROUP, {Key("a")})));
    Continue(8, run, events, List({Key("a")}), s9);
    run, events := run + [s9], events + [List({Key("a")})];
    run, events := OldMeasurementIsWritten(8, run, events);
    run, events := FilterAndBind(8, run, events, "b");
    assert {Key("a")} + {Key("b")} == {Key("a"), Key("b")};
    OneLeft(run[|events|].node);
  }

  lemma OldMeasurementIsWritten(bad: int, run: seq<Interleaving.State>, events: seq<Interleaving.Event>)
    returns (run': seq<Interleaving.State>, events': seq<Interleaving.Event>)
    requires RaceRun(bad, run, events) && |run| == |events| + 1 && run[|events|].node == CARVED
    requires run[|events|].sync == Some(Listed(run[|events|].version, EMPTY_GROUP, {Key("a")}))
    ensures RaceRun(bad, run', events') && |run'| == |events'| + 1
    ensures run'[|events'|].node == CARVED.(status := Status(10, 10, {})) && run'[|events'|].sync == None
  {
    hide Interleaving.Possible, Interleaving.Assumed, Interleaving.Apply, RaceRun, Key;
    var s := run[|events|];
    assert {Key("a")} - {Key("a")} == {};
    WriteStep(s, EMPTY_GROUP, {Key("a")}, Status(10, 10, {}));
    var t := s.(node := CARVED.(status := Status(10, 10, {})), version := s.version + 1, sync := None);
    Continue(bad, run, events, WriteBack, t);
    run', events' := run + [t], events + [WriteBack];
  }

  /** The list comes from a cache. A list from before the bind with a group measured after the carve
      leaves a reservation that the free size no longer holds, and the subtraction wraps around. */
  lemma ListedBeforeBindMeasuredAfter() returns (run: seq<Interleaving.State>, events: seq<Interleaving.Event>)
    ensures RaceRun(8, run, events)
    ensures var node := run[|run| - 1].node;
            NodeFreeSize(node.view, node.status.freeSize, node.status.preAllocated) == TWO64 - 10
  {
    hide SplitPVCKey, ValidView, MakePVCKey, Interleaving.Possible, Interleaving.Assumed, Interleaving.Apply,
         RaceRun, Reserved, Offers, PodOf, Key, Reservation.Possible, Reservation.Apply, Reservation.Group,
         Reservation.Lands;
    NamesDiffer();
    OneReserved("a");
    Groups(CARVED);
    run, events := BoundOnce(8);
    var s6 := run[6];
    CarveStep(BOUND);
    NodeStep(s6, Reservation.Carve(0), CARVED);
    assert CARVED.boundTo.Keys == {Key("a")};
    var s7 := s6.(node := CARVED);
    Continue(8, run, events, NodeEvent(Reservation.Carve(0)), s7);
    run, events := run + [s7], events + [NodeEvent(Reservation.Carve(0))];
    MeasureStep(s7, FULL_GROUP);
    var s8 := s7.(sync := Some(Measured(2, FULL_GROUP)));
    Continue(8, run, events, Measure(2), s8);
    run, events := run + [s8], events + [Measure(2)];
    ListStep(s8, FULL_GROUP, {});
    var s9 := s8.(sync := Some(Listed(2, FULL_GROUP, {})));
    Continue(8, run, events, List({}), s9);
    run, events := run + [s9], events + [List({})];
    assert {Key("a")} - {} == {Key("a")};
    WriteStep(s9, FULL_GROUP, {}, Status(10, 0, {Key("a")}));
    var s10 := s9.(node := CARVED.(status := Status(10, 0, {Key("a")})), version := 3, sync := None);
    Continue(8, run, events, WriteBack, s10);
    run, events := run + [s10], events + [WriteBack];
    NoneLeft(s10.node, 10);
  }
}
