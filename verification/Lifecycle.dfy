/** One volume over its whole life: publishes that may die at any stage or in the middle of a format,
    unpublishes, release, changes of the reclaim policy, other controllers' finalizers, and a garbage
    collector that works on a stale copy of the volume. */
module Lifecycle {
  import opened Wrappers
  import opened Rounding
  import opened Devices
  import opened Volumes
  import opened Driver

  /** The stored volume object as a cache may hold it. */
  datatype Copy = Copy(version: nat, phase: Phase, deletePolicy: bool, finalizers: seq<string>)

  datatype Call = Call(req: Request, stage: nat, newCreated: bool)

  datatype Collector = Resting | Removing(copy: Copy) | Updating(copy: Copy)

  datatype State = State(
    w: World, version: nat, history: set<Copy>, cache: Option<Copy>,
    call: Option<Call>, collector: Collector)

  datatype Event =
    | BindPhase
    | ReleasePhase
    | SetPolicy(delete: bool)
    | ForeignFinalizers(finalizers: seq<string>)
    | PublishStart(req: Request)
    | PublishStage
    | FormatDies(file: string, blkid: string)
    | PublishEnds
    | Unpublish
    | Deliver(copy: Copy)
    | GcCheck
    | GcRemove(succeeds: bool)
    | GcUpdate

  function Current(s: State): Copy {
    Copy(s.version, s.w.phase, s.w.deletePolicy, s.w.finalizers)
  }

  /** Publishes run one at a time, only while the volume is bound, and are over before its release;
      others leave the collector's finalizer alone. */
  predicate Enabled(s: State, e: Event) {
    match e
    case BindPhase => s.w.phase == Pending || s.w.phase == Available
    case ReleasePhase => s.w.phase == Bound && s.call.None?
    case SetPolicy(_) => true
    case ForeignFinalizers(f) => GC_TAG in f <==> GC_TAG in s.w.finalizers
    case PublishStart(_) => s.call.None? && s.w.phase == Bound
    case PublishStage => s.call.Some? && s.call.value.stage < STAGES
    case FormatDies(_, _) =>
      s.call.Some? && s.call.value.stage == 2 && s.w.device.Some? && Detected(s.w.device.value) == Ok("")
    case PublishEnds => s.call.Some?
    case Unpublish => true
    case Deliver(copy) => copy in s.history
    case GcCheck => s.collector.Resting? && s.cache.Some?
    case GcRemove(_) => s.collector.Removing?
    case GcUpdate => s.collector.Updating?
  }

  /** A write of the volume object. */
  function Written(s: State, w: World): State {
    var t := s.(w := w, version := s.version + 1);
    t.(history := t.history + {Current(t)})
  }

  function Apply(s: State, e: Event): State
    requires Enabled(s, e)
  {
    match e
    case BindPhase => Written(s, s.w.(phase := Bound))
    case ReleasePhase => Written(s, s.w.(phase := Released))
    case SetPolicy(delete) => Written(s, s.w.(deletePolicy := delete))
    case ForeignFinalizers(f) => Written(s, s.w.(finalizers := f))
    case PublishStart(req) => s.(call := Some(Call(req, 0, s.w.device.None?)))
    case PublishStage =>
      var Call(req, i, newCreated) := s.call.value;
      match Stage(i, s.w, req, newCreated) {
        case None => s.(call := None)
        case Some(w) =>
          var t := if i == STAGES - 1 && !s.w.annotated then Written(s, w) else s.(w := w);
          t.(call := Some(Call(req, i + 1, newCreated)))
      }
    case FormatDies(file, blkid) =>
      s.(call := None, w := s.w.(device := Some(s.w.device.value.(file := file, blkid := blkid)), mkfses := s.w.mkfses + 1))
    case PublishEnds => s.(call := None)
    case Unpublish => s.(w := s.w.(mounted := false))
    case Deliver(copy) => s.(cache := Some(copy))
    case GcCheck =>
      var c := s.cache.value;
      if c.phase == Released && c.deletePolicy && GC_TAG in c.finalizers then s.(collector := Removing(c)) else s
    case GcRemove(succeeds) =>
      if succeeds then s.(w := RemoveDevice(s.w), collector := Updating(s.collector.copy))
      else s.(collector := Resting)
    case GcUpdate =>
      var c := s.collector.copy;
      if c.version == s.version
      then Written(s, s.w.(finalizers := Without(c.finalizers, GC_TAG))).(collector := Resting)
      else s.(collector := Resting)
  }

  /** A volume object before anything was done for it. */
  predicate Initial(s: State) {
    && s.w.device.None? && !s.w.annotated && s.w.phase == Pending
    && s.history == {Current(s)} && s.cache.None? && s.call.None? && s.collector.Resting?
  }

  ghost predicate IsRun(run: seq<State>, events: seq<Event>) {
    && |run| == |events| + 1
    && Initial(run[0])
    && forall i | 0 <= i < |events| :: Enabled(run[i], events[i]) && run[i + 1] == Apply(run[i], events[i])
  }

  // -------------------------------------------------------------- invariants

  predicate ReleasedForDeletion(c: Copy) {
    c.phase == Released && c.deletePolicy
  }

  /** The volume was once stored as released with the policy to delete it. */
  ghost predicate WasReleasedForDeletion(s: State) {
    exists c :: c in s.history && ReleasedForDeletion(c)
  }

  /** Versions identify copies, and a copy that is released says so of the volume. */
  ghost predicate HistoryInv(s: State) {
    && Current(s) in s.history
    && (forall c | c in s.history ::
          && c.version <= s.version && (c.version == s.version ==> c == Current(s))
          && (c.phase == Released ==> s.w.phase == Released))
    && (s.cache.Some? ==> s.cache.value in s.history)
    && (!s.collector.Resting? ==> s.collector.copy in s.history && ReleasedForDeletion(s.collector.copy))
  }

  /** How far a publish in flight has brought the device; a published device stays recognised unless
      the volume was once released for deletion; the finalizer goes after the device. */
  ghost predicate DeviceInv(s: State) {
    && (s.call.Some? ==>
          && s.w.phase == Bound && s.call.value.stage <= STAGES
          && (s.call.value.stage >= 2 ==> Settled(1, s.w))
          && (s.call.value.stage >= 3 ==> Settled(2, s.w)))
    && (s.w.annotated && !WasReleasedForDeletion(s) ==> Settled(2, s.w))
    && (s.collector.Updating? ==> s.w.device.None?)
    && (s.w.annotated && s.w.device.Some? ==> GC_TAG in s.w.finalizers)
  }

  ghost predicate Inv(s: State) {
    HistoryInv(s) && DeviceInv(s)
  }

  /** Of the volume object, a stage can change annotation and finalizers only, and only the last does. */
  lemma StageKeepsObject(i: nat, w: World, req: Request, newCreated: bool)
    requires i < STAGES && Stage(i, w, req, newCreated).Some?
    ensures var w' := Stage(i, w, req, newCreated).value;
            && w'.phase == w.phase && w'.deletePolicy == w.deletePolicy
            && (i < STAGES - 1 || w.annotated ==> w'.annotated == w.annotated && w'.finalizers == w.finalizers)
            && (i == STAGES - 1 ==> w'.device == w.device && (w.annotated || GC_TAG in w'.finalizers))
  {
    hide CheckFSType, CarvedBytes, AskedBytes, PvSize, DisplayedNumber, NamesType;
  }

  /** The same device with the same contents, made and formatted no more often. */
  predicate SameData(w: World, w': World) {
    && w'.lvcreates == w.lvcreates && w'.mkfses == w.mkfses
    && (w.device.Some? && w'.device.Some? ==>
          w'.device.value.file == w.device.value.file && w'.device.value.blkid == w.device.value.blkid)
  }

  /** A recognised device survives every stage. */
  lemma StageKeepsData(i: nat, w: World, req: Request, newCreated: bool)
    requires i < STAGES && Stage(i, w, req, newCreated).Some? && Settled(2, w)
    ensures var w' := Stage(i, w, req, newCreated).value;
            w'.device.Some? && SameData(w, w')
  {
    hide CheckFSType, CarvedBytes, AskedBytes, PvSize, DisplayedNumber, NamesType;
  }

  lemma SameDataStaysSettled(w: World, w': World)
    requires SameData(w, w') && w.device.Some? && w'.device.Some?
    ensures Settled(1, w') <==> Settled(1, w)
    ensures Settled(2, w') <==> Settled(2, w)
  {
    hide CheckFSType;
  }

  /** What a stage of a publish achieves. */
  lemma StageAdvances(i: nat, w: World, req: Request, newCreated: bool)
    requires i < STAGES && Stage(i, w, req, newCreated).Some?
    requires i >= 2 ==> Settled(1, w)
    requires i >= 3 ==> Settled(2, w)
    ensures var w' := Stage(i, w, req, newCreated).value;
            && (i >= 1 ==> Settled(1, w'))
            && (i >= 2 ==> Settled(2, w'))
            && (Settled(2, w) ==> Settled(2, w'))
  {
    var w' := Stage(i, w, req, newCreated).value;
    if Settled(2, w) {
      StageKeepsData(i, w, req, newCreated);
      SameDataStaysSettled(w, w');
    } else if i == 2 {
      FormatSettles(w, req);
    }
    hide CheckFSType, CarvedBytes, AskedBytes, FormatStage, ResizeStage;
  }

  lemma StepKeepsHistory(s: State, e: Event)
    requires HistoryInv(s) && Enabled(s, e)
    requires s.call.Some? ==> s.w.phase == Bound
    ensures HistoryInv(Apply(s, e))
  {
    hide Stage, Without;
    if e.PublishStage? {
      var Call(req, i, newCreated) := s.call.value;
      if Stage(i, s.w, req, newCreated).Some? {
        StageKeepsObject(i, s.w, req, newCreated);
      }
    }
  }

  /** While the volume is bound, it was never released. */
  lemma BoundWasNotReleased(s: State)
    requires HistoryInv(s) && s.w.phase == Bound
    ensures !WasReleasedForDeletion(s) && s.collector.Resting?
  {
  }

  lemma PublishKeepsDevice(s: State)
    requires Inv(s) && Enabled(s, PublishStage)
    ensures DeviceInv(Apply(s, PublishStage))
  {
    BoundWasNotReleased(s);
    assert s.w.annotated ==> s.w.device.Some?;
    hide Stage, Settled, HistoryInv, WasReleasedForDeletion;
    var Call(req, i, newCreated) := s.call.value;
    if Stage(i, s.w, req, newCreated).Some? {
      StageKeepsObject(i, s.w, req, newCreated);
      StageAdvances(i, s.w, req, newCreated);
    }
  }

  lemma StepKeepsDevice(s: State, e: Event)
    requires Inv(s) && Enabled(s, e)
    ensures DeviceInv(Apply(s, e))
  {
    if e.PublishStage? {
      PublishKeepsDevice(s);
    } else if e.FormatDies? {
      BoundWasNotReleased(s);
      hide CheckFSType, WasReleasedForDeletion, HistoryInv;
    } else {
      OtherStepKeepsDevice(s, e);
    }
  }

  lemma OtherStepKeepsDevice(s: State, e: Event)
    requires Inv(s) && Enabled(s, e) && !e.PublishStage? && !e.FormatDies?
    ensures DeviceInv(Apply(s, e))
  {
    hide CheckFSType, Stage, Without;
    var s' := Apply(s, e);
    HistoryGrows(s, e);
    assert !s.collector.Resting? ==> WasReleasedForDeletion(s);
    hide WasReleasedForDeletion, ReleasedForDeletion;
  }

  lemma HistoryGrows(s: State, e: Event)
    requires Enabled(s, e)
    ensures s.history <= Apply(s, e).history
    ensures WasReleasedForDeletion(s) ==> WasReleasedForDeletion(Apply(s, e))
  {
    hide Stage, Without;
  }

  lemma {:induction false} RunKeepsInv(run: seq<State>, events: seq<Event>, i: nat)
    requires IsRun(run, events) && i < |run|
    ensures Inv(run[i])
  {
    if i > 0 {
      RunKeepsInv(run, events, i - 1);
      StepKeepsHistory(run[i - 1], events[i - 1]);
      StepKeepsDevice(run[i - 1], events[i - 1]);
    }
  }

  // ------------------------------------------------------------ data survival

  lemma StepKeepsData(s: State, e: Event)
    requires Inv(s) && Enabled(s, e) && s.w.annotated
    ensures var s' := Apply(s, e);
            && s'.w.annotated && SameData(s.w, s'.w)
            && (s.w.device.None? ==> s'.w.device.None?)
  {
    if s.call.Some? {
      BoundWasNotReleased(s);
    }
    if e.PublishStage? {
      var Call(req, i, newCreated) := s.call.value;
      if Stage(i, s.w, req, newCreated).Some? {
        StageKeepsObject(i, s.w, req, newCreated);
        StageKeepsData(i, s.w, req, newCreated);
      }
    }
    hide Stage, CheckFSType, Without, WasReleasedForDeletion;
  }

  lemma PublishedIsThere(s: State)
    requires Inv(s)
    ensures s.w.annotated && !WasReleasedForDeletion(s) ==> s.w.device.Some?
  {
  }

  /** Every copy was the stored volume of some earlier state of the run. */
  lemma {:induction false} CopiesArePast(run: seq<State>, events: seq<Event>, i: nat, c: Copy) returns (m: nat)
    requires IsRun(run, events) && i < |run| && c in run[i].history
    ensures m <= i && c == Current(run[m])
  {
    if c == Current(run[i]) || i == 0 {
      m := i;
    } else {
      NewCopyIsCurrent(run[i - 1], events[i - 1]);
      m := CopiesArePast(run, events, i - 1, c);
    }
  }

  lemma NewCopyIsCurrent(s: State, e: Event)
    requires Enabled(s, e)
    ensures Apply(s, e).history <= s.history + {Current(Apply(s, e))}
  {
    hide Stage, Without;
  }

  /** In every run, a volume once published is never created or formatted again, keeps its contents,
      and is there as long as no state so far was released with the policy to delete. */
  lemma {:induction false} DataSurvives(run: seq<State>, events: seq<Event>, i: nat, j: nat)
    requires IsRun(run, events) && i <= j < |run| && run[i].w.annotated
    ensures run[j].w.annotated && SameData(run[i].w, run[j].w)
    ensures run[i].w.device.None? ==> run[j].w.device.None?
    ensures (forall m | 0 <= m <= j :: !ReleasedForDeletion(Current(run[m]))) ==>
              run[i].w.device.Some? && run[j].w.device.Some?
  {
    hide Inv, Apply, Enabled, Initial, ReleasedForDeletion, WasReleasedForDeletion;
    if i < j {
      DataSurvives(run, events, i, j - 1);
      RunKeepsInv(run, events, j - 1);
      StepKeepsData(run[j - 1], events[j - 1]);
    }
    RunKeepsInv(run, events, j);
    PublishedIsThere(run[j]);
    if WasReleasedForDeletion(run[j]) {
      ReleaseIsPast(run, events, j);
    }
  }

  lemma ReleaseIsPast(run: seq<State>, events: seq<Event>, j: nat)
    requires IsRun(run, events) && j < |run| && WasReleasedForDeletion(run[j])
    ensures exists m :: 0 <= m <= j && ReleasedForDeletion(Current(run[m]))
  {
    hide IsRun;
    var c :| c in run[j].history && ReleasedForDeletion(c);
    var m := CopiesArePast(run, events, j, c);
  }

  /** Only the collector ever removes a device. The copy it decided on was the stored volume of an
      earlier state, released with the policy to delete, and the volume is still released. The policy
      is to keep the volume by now if and only if somebody has changed it since that state and nobody
      has changed it back. */
  lemma RemovedOnlyAfterRelease(run: seq<State>, events: seq<Event>, i: nat) returns (m: nat)
    requires IsRun(run, events) && i < |events|
    requires run[i].w.device.Some? && run[i + 1].w.device.None?
    ensures events[i] == GcRemove(true) && run[i].collector.Removing?
    ensures m <= i && Current(run[m]) == run[i].collector.copy && ReleasedForDeletion(Current(run[m]))
    ensures run[i].w.phase == Released
    ensures !run[i].w.deletePolicy <==> exists j :: RetainedSince(events, m, j, i)
  {
    RunKeepsInv(run, events, i);
    RemovalIsByCollector(run[i], events[i]);
    hide Apply, Inv, DeviceInv, Initial;
    var copy := run[i].collector.copy;
    assert HistoryInv(run[i]) by { InvHasHistory(run[i]); }
    m := CopiesArePast(run, events, i, copy);
    PolicyIsTheLastOneSet(run, events, m, i);
  }

  /** Step `j`, between `m` and `i`, sets the policy to keep the volume, and it is not set back. */
  predicate RetainedSince(events: seq<Event>, m: int, j: int, i: int) {
    && 0 <= m <= j < i <= |events| && events[j] == SetPolicy(false)
    && forall l | j < l < i :: events[l] != SetPolicy(true)
  }

  lemma OnlySetPolicySetsIt(s: State, e: Event)
    requires Enabled(s, e)
    ensures Apply(s, e).w.deletePolicy == if e.SetPolicy? then e.delete else s.w.deletePolicy
  {
    hide Stage, CheckFSType, Without;
    if e.PublishStage? && Stage(s.call.value.stage, s.w, s.call.value.req, s.call.value.newCreated).Some? {
      StageKeepsObject(s.call.value.stage, s.w, s.call.value.req, s.call.value.newCreated);
    }
  }

  lemma {:induction false} PolicyIsTheLastOneSet(run: seq<State>, events: seq<Event>, m: nat, i: nat)
    requires IsRun(run, events) && m <= i < |run| && run[m].w.deletePolicy
    ensures !run[i].w.deletePolicy <==> exists j :: RetainedSince(events, m, j, i)
  {
    hide Enabled, Apply, Initial;
    if m < i {
      var e, before := events[i - 1], i - 1;
      PolicyIsTheLastOneSet(run, events, m, before);
      OnlySetPolicySetsIt(run[i - 1], e);
      if e == SetPolicy(false) {
        assert RetainedSince(events, m, i - 1, i);
      } else if j :| RetainedSince(events, m, j, before) {
        assert e != SetPolicy(true) ==> RetainedSince(events, m, j, i);
      }
      if j :| RetainedSince(events, m, j, i) {
        assert j == before || RetainedSince(events, m, j, before);
      }
    }
  }

  lemma InvHasHistory(s: State)
    requires Inv(s)
    ensures HistoryInv(s)
  {
  }

  lemma RemovalIsByCollector(s: State, e: Event)
    requires Enabled(s, e) && s.w.device.Some? && Apply(s, e).w.device.None?
    ensures e == GcRemove(true) && s.collector.Removing?
  {
    if e.PublishStage? && Stage(s.call.value.stage, s.w, s.call.value.req, s.call.value.newCreated).Some? {
      StageKeepsDeviceThere(s.call.value.stage, s.w, s.call.value.req, s.call.value.newCreated);
    }
    hide Stage, CheckFSType, Without;
  }

  /** A policy changed to keep the volume after the collector looked does not stop the removal. */
  lemma RetainComesTooLate(s: State)
    requires Inv(s) && s.collector.Removing? && s.w.device.Some?
    ensures var kept := Apply(s, SetPolicy(false));
            && Inv(kept) && Enabled(kept, GcRemove(true))
            && !ReleasedForDeletion(Current(kept))
            && Apply(kept, GcRemove(true)).w.device.None?
  {
    hide Stage, CheckFSType, Without;
    StepKeepsHistory(s, SetPolicy(false));
    StepKeepsDevice(s, SetPolicy(false));
  }

  lemma StageKeepsDeviceThere(i: nat, w: World, req: Request, newCreated: bool)
    requires i < STAGES && Stage(i, w, req, newCreated).Some? && w.device.Some?
    ensures Stage(i, w, req, newCreated).value.device.Some?
  {
    hide CheckFSType, CarvedBytes, AskedBytes, PvSize, DisplayedNumber, NamesType;
  }

  /** A device is carved only for a volume without the annotation, so the publish that carves it, or a
      retry, has the tag still to write. */
  lemma CarvedOnlyUntagged(run: seq<State>, events: seq<Event>, i: nat)
    requires IsRun(run, events) && i < |events|
    requires run[i].w.device.None? && run[i + 1].w.device.Some?
    ensures events[i].PublishStage? && !run[i].w.annotated && !run[i + 1].w.annotated
  {
    var s, e := run[i], events[i];
    RunKeepsInv(run, events, i);
    if e.PublishStage? {
      BoundWasNotReleased(s);
      var Call(req, k, newCreated) := s.call.value;
      if Stage(k, s.w, req, newCreated).Some? {
        StageKeepsObject(k, s.w, req, newCreated);
      }
    }
    hide Stage, CheckFSType, Without, WasReleasedForDeletion;
  }

  /** In every reachable state a published volume with a device has the collector's finalizer; the
      finalizer goes only in an update by the collector that finds the device gone, and that update
      leaves the other finalizers as they are, in order. */
  lemma FinalizerGuardsVolume(run: seq<State>, events: seq<Event>, i: nat)
    requires IsRun(run, events) && i < |run|
    ensures run[i].w.annotated && run[i].w.device.Some? ==> GC_TAG in run[i].w.finalizers
    ensures i < |events| && GC_TAG in run[i].w.finalizers && GC_TAG !in run[i + 1].w.finalizers ==>
              && events[i] == GcUpdate && run[i].w.device.None? && run[i + 1].w.device.None?
              && run[i + 1].w.finalizers == Without(run[i].w.finalizers, GC_TAG)
  {
    hide Apply, Initial, HistoryInv;
    RunKeepsInv(run, events, i);
    if i < |events| && GC_TAG in run[i].w.finalizers && GC_TAG !in run[i + 1].w.finalizers {
      FinalizerGoesLast(run[i], events[i]);
    }
  }

  lemma FinalizerGoesLast(s: State, e: Event)
    requires Inv(s) && Enabled(s, e) && GC_TAG in s.w.finalizers && GC_TAG !in Apply(s, e).w.finalizers
    ensures e == GcUpdate && s.w.device.None? && Apply(s, e).w.device.None?
    ensures Apply(s, e).w.finalizers == Without(s.w.finalizers, GC_TAG)
  {
    hide Stage, CheckFSType, Without;
    if e.PublishStage? && Stage(s.call.value.stage, s.w, s.call.value.req, s.call.value.newCreated).Some? {
      StageKeepsObject(s.call.value.stage, s.w, s.call.value.req, s.call.value.newCreated);
    }
  }

  // --------------------------------------------- the collector's steps and its code

  /** A collector that looks at an up-to-date copy, removes the device and updates the object, does what one
      call of the collector does; where that call does nothing, it does not begin. */
  lemma CollectorStepsAreCollect(s: State)
    requires Inv(s) && s.collector.Resting? && s.cache == Some(Current(s))
    ensures Enabled(s, GcCheck)
    ensures Apply(s, GcCheck).collector.Resting? ==> Apply(s, GcCheck) == s && forall stop :: Collect(s.w, stop) == (s.w, true)
    ensures !Apply(s, GcCheck).collector.Resting? ==>
              var s1 := Apply(s, GcCheck);
              && s1.w == s.w && Enabled(s1, GcRemove(true)) && Enabled(s1, GcRemove(false))
              && Apply(s1, GcRemove(false)).w == Collect(s.w, 0).0
              && var s2 := Apply(s1, GcRemove(true));
              && s2.w == Collect(s.w, 1).0 && Enabled(s2, GcUpdate)
              && Apply(s2, GcUpdate).w == Collect(s.w, 2).0 && Apply(s2, GcUpdate).collector.Resting?
  {
    hide HistoryInv, DeviceInv, Without;
    CollectExactly(s.w, 0);
  }

  // ------------------------------------------------------ a publish too late

  /** A publish that succeeds leaves the device guarded by the collector's finalizer if and only if
      the volume had not been tagged before or still has the finalizer. A publish after the collection
      leaves a device that no collection removes. */
  lemma {:induction false} PublishGuardsExactly(w: World, req: Request, newCreated: bool, i: nat)
    requires i <= STAGES && From(w, req, newCreated, i, STAGES).1
    requires i > 1 ==> w.device.Some?
    requires i == STAGES ==> w.annotated
    ensures var w' := From(w, req, newCreated, i, STAGES).0;
            && w'.annotated && w'.device.Some?
            && (GC_TAG in w'.finalizers <==> !w.annotated || GC_TAG in w.finalizers)
            && (w.annotated && GC_TAG !in w.finalizers ==> forall stop :: Collect(w', stop) == (w', true))
    decreases STAGES - i
  {
    hide CheckFSType, CarvedBytes, AskedBytes, PvSize, DisplayedNumber, NamesType, From;
    OneStage(w, req, newCreated, i, STAGES);
    if i < STAGES {
      StageKeepsObject(i, w, req, newCreated);
      PublishGuardsExactly(Stage(i, w, req, newCreated).value, req, newCreated, i + 1);
    }
  }

  /** For a whole publish. */
  lemma LatePublishIsUnguardedExactlyWhen(w: World, req: Request)
    requires Publish(w, req, STAGES).1
    ensures var w' := Publish(w, req, STAGES).0;
            && w'.annotated && w'.device.Some?
            && (GC_TAG !in w'.finalizers <==> w.annotated && GC_TAG !in w.finalizers)
            && (GC_TAG !in w'.finalizers ==> forall stop :: Collect(w', stop) == (w', true))
  {
    PublishGuardsExactly(w, req, w.device.None?, 0);
  }

  /** A request for a volume that comes with a file system on it. */
  function FormattedRequest(): Request {
    Request("ext4", true, "ext4" + " filesystem", ("DEVNAME" + "=" + "x") + "\n" + ("TYPE" + "=" + "ext4") + "\n", "", "")
  }

  lemma FormattedIsFound()
    ensures FormattedRequest().linear
    ensures var found := CheckFSType(Some(FormattedRequest().newFile), Some(FormattedRequest().newBlkid));
            found.Ok? && found != Ok("")
  {
    hide CheckFSType, NamesType;
    ExportNamesType("x", "ext4");
    FormattedIsRecognised(FormattedRequest().newFile, FormattedRequest().newBlkid, "ext4");
  }

  lemma OneGiB()
    ensures AskedBytes(GIB) == GIB && CarvedBytes(GIB) == GIB
  {
  }

  /** A volume of one GiB, collected and then published once more, is left unguarded. */
  lemma UnguardedVolume(w: World)
    requires w == World(GIB, None, false, GIB, Released, true, true, [], 1, 1)
    ensures Publish(w, FormattedRequest(), STAGES).1
    ensures GC_TAG !in Publish(w, FormattedRequest(), STAGES).0.finalizers
  {
    hide CheckFSType, NamesType, Publish, AskedBytes, CarvedBytes;
    FormattedIsFound();
    OneGiB();
    FirstPublishSucceedsExactly(w, FormattedRequest());
    LatePublishIsUnguardedExactlyWhen(w, FormattedRequest());
  }

  // --------------------------------------------------- a policy changed too late

  lemma Extend(run: seq<State>, events: seq<Event>, e: Event, s': State)
    requires IsRun(run, events) && Enabled(run[|events|], e) && s' == Apply(run[|events|], e)
    ensures IsRun(run + [s'], events + [e]) && |run + [s']| == |events + [e]| + 1
  {
    hide Enabled, Apply, Initial;
  }

  /** A stage of the call that created the device, other than the tag. */
  lemma StageStep(s: State, i: nat, req: Request, w: World)
    requires s.call == Some(Call(req, i, true)) && i < STAGES - 1 && Stage(i, s.w, req, true) == Some(w)
    ensures Enabled(s, PublishStage)
    ensures Apply(s, PublishStage) == s.(w := w, call := Some(Call(req, i + 1, true)))
  {
    hide Stage;
  }

  const NEW_VOLUME := World(GIB, None, false, GIB, Pending, true, false, [], 0, 0)
  const MADE := Some(Device(GIB, FormattedRequest().newFile, FormattedRequest().newBlkid))
  const MOUNTED := NEW_VOLUME.(free := 0, device := MADE, mounted := true, phase := Bound, lvcreates := 1)

  /** The stages before the tag, for a new volume whose type is found. */
  lemma StagesOfNewVolume(w: World, req: Request, made: World)
    requires w.device.None? && req.linear && 0 < AskedBytes(w.capacity) && CarvedBytes(w.capacity) <= w.free
    requires var found := CheckFSType(Some(req.newFile), Some(req.newBlkid)); found.Ok? && found != Ok("")
    requires made == w.(device := Some(Device(CarvedBytes(w.capacity), req.newFile, req.newBlkid)),
                        free := w.free - CarvedBytes(w.capacity), lvcreates := w.lvcreates + 1)
    ensures Stage(0, w, req, true) == Some(made) && Stage(1, made, req, true) == Some(made)
    ensures Stage(2, made, req, true) == Some(made) && Stage(3, made, req, true) == Some(made.(mounted := true))
    ensures Stage(4, made.(mounted := true), req, true) == Some(made.(mounted := true))
  {
    hide CheckFSType, AskedBytes, CarvedBytes, NamesType;
  }

  lemma FirstStages(w: World)
    requires w == NEW_VOLUME.(phase := Bound)
    ensures var req, made := FormattedRequest(), MOUNTED.(mounted := false);
            && Stage(0, w, req, true) == Some(made) && Stage(1, made, req, true) == Some(made)
            && Stage(2, made, req, true) == Some(made) && Stage(3, made, req, true) == Some(MOUNTED)
            && Stage(4, MOUNTED, req, true) == Some(MOUNTED)
  {
    hide CheckFSType, AskedBytes, CarvedBytes, NamesType, FormattedRequest, Stage;
    FormattedIsFound();
    OneGiB();
    StagesOfNewVolume(w, FormattedRequest(), MOUNTED.(mounted := false));
  }

  /** A volume up to the tag of its first publish. */
  lemma MountedRun() returns (run: seq<State>, events: seq<Event>)
    ensures IsRun(run, events) && |run| == |events| + 1
    ensures var s := run[|events|];
            s.w == MOUNTED && s.call == Some(Call(FormattedRequest(), 5, true)) && s.collector.Resting?
  {
    hide Stage, FormattedRequest, IsRun;
    var req, made := FormattedRequest(), MOUNTED.(mounted := false);
    var copy := Copy(0, Pending, true, []);
    var s := State(NEW_VOLUME, 0, {copy}, None, None, Resting);
    run, events := [s], [];
    StartsRun(s);
    var t := Apply(s, BindPhase);
    Extend(run, events, BindPhase, t);
    run, events, s := run + [t], events + [BindPhase], t;
    t := s.(call := Some(Call(req, 0, true)));
    Extend(run, events, PublishStart(req), t);
    run, events, s := run + [t], events + [PublishStart(req)], t;
    FirstStages(s.w);
    run, events := StagesRun(run, events, made);
  }

  lemma StartsRun(s: State)
    requires Initial(s)
    ensures IsRun([s], [])
  {
  }

  lemma StagesRun(run: seq<State>, events: seq<Event>, made: World)
    returns (run': seq<State>, events': seq<Event>)
    requires IsRun(run, events) && |run| == |events| + 1
    requires var s, req := run[|events|], FormattedRequest();
             && s.call == Some(Call(req, 0, true)) && s.collector.Resting?
             && Stage(0, s.w, req, true) == Some(made) && Stage(1, made, req, true) == Some(made)
             && Stage(2, made, req, true) == Some(made) && Stage(3, made, req, true) == Some(MOUNTED)
             && Stage(4, MOUNTED, req, true) == Some(MOUNTED)
    ensures IsRun(run', events') && |run'| == |events'| + 1
    ensures var s := run'[|events'|];
            s.w == MOUNTED && s.call == Some(Call(FormattedRequest(), 5, true)) && s.collector.Resting?
  {
    hide Stage, FormattedRequest, IsRun, Apply, Enabled;
    var worlds := [made, made, made, MOUNTED, MOUNTED];
    run', events' := run, events;
    var s := run[|events|];
    for i := 0 to 5
      invariant IsRun(run', events') && |run'| == |events'| + 1 && run'[|events'|] == s
      invariant s.call == Some(Call(FormattedRequest(), i, true)) && s.collector.Resting?
      invariant s.w == if i == 0 then run[|events|].w else worlds[i - 1]
    {
      StageStep(s, i, FormattedRequest(), worlds[i]);
      var t := s.(w := worlds[i], call := Some(Call(FormattedRequest(), i + 1, true)));
      Extend(run', events', PublishStage, t);
      run', events', s := run' + [t], events' + [PublishStage], t;
    }
  }

  /** A run in which the collector removes the device of a volume that is to be kept. */
  lemma RetainIgnored() returns (run: seq<State>, events: seq<Event>)
    ensures IsRun(run, events) && |events| >= 2 && |run| == |events| + 1
    ensures events[|events| - 1] == GcRemove(true)
    ensures run[|events| - 1].w.device.Some? && run[|events|].w.device.None?
    ensures run[|events| - 1].w.annotated && !run[|events| - 1].w.deletePolicy
  {
    hide Inv, IsRun, Apply, Enabled;
    run, events := ReleasedRun();
    var s := run[|events|];
    RunKeepsInv(run, events, |events|);
    CollectorLooks(s);
    var t := s.(cache := Some(Current(s)));
    Extend(run, events, Deliver(Current(s)), t);
    run, events := run + [t], events + [Deliver(Current(s))];
    var u := t.(collector := Removing(Current(s)));
    Extend(run, events, GcCheck, u);
    run, events := run + [u], events + [GcCheck];
    RunKeepsInv(run, events, |events|);
    RetainComesTooLate(u);
    SetPolicyStep(u);
    var kept := Apply(u, SetPolicy(false));
    Extend(run, events, SetPolicy(false), kept);
    run, events := run + [kept], events + [SetPolicy(false)];
    Extend(run, events, GcRemove(true), Apply(kept, GcRemove(true)));
    run, events := run + [Apply(kept, GcRemove(true))], events + [GcRemove(true)];
  }

  lemma SetPolicyStep(s: State)
    ensures Enabled(s, SetPolicy(false))
    ensures var t := Apply(s, SetPolicy(false)); t.w == s.w.(deletePolicy := false)
  {
  }

  lemma CollectorLooks(s: State)
    requires Inv(s) && s.collector.Resting? && ReleasedForDeletion(Current(s)) && GC_TAG in s.w.finalizers
    ensures var t := s.(cache := Some(Current(s)));
            && Enabled(s, Deliver(Current(s))) && Apply(s, Deliver(Current(s))) == t
            && Enabled(t, GcCheck) && Apply(t, GcCheck) == t.(collector := Removing(Current(s)))
  {
    hide DeviceInv;
  }

  /** A volume published once and released with the policy to delete. */
  lemma ReleasedRun() returns (run: seq<State>, events: seq<Event>)
    ensures IsRun(run, events) && |run| == |events| + 1
    ensures var s := run[|events|];
            && s.w.annotated && s.w.device.Some? && GC_TAG in s.w.finalizers
            && s.collector.Resting? && ReleasedForDeletion(Current(s))
  {
    hide IsRun, FormattedRequest;
    run, events := MountedRun();
    var s := run[|events|];
    var t := Apply(s, PublishStage);
    Extend(run, events, PublishStage, t);
    run, events, s := run + [t], events + [PublishStage], t;
    t := s.(call := None);
    Extend(run, events, PublishEnds, t);
    run, events, s := run + [t], events + [PublishEnds], t;
    t := Apply(s, ReleasePhase);
    Extend(run, events, ReleasePhase, t);
    run, events := run + [t], events + [ReleasePhase];
  }

  // --------------------------------------------------------- stuck half formatted

  /** The volume was never published, no publish in flight is past the check, and the check fails, or
      the device is gone with the volume released. */
  ghost predicate Stuck(s: State) {
    && !s.w.annotated && (s.call.Some? ==> s.call.value.stage <= 1)
    && if s.w.device.Some? then Detected(s.w.device.value).Err? else s.w.phase == Released
  }

  lemma StepKeepsStuck(s: State, e: Event)
    requires Inv(s) && Enabled(s, e) && Stuck(s)
    ensures Stuck(Apply(s, e))
    ensures s.w.device.Some? && Apply(s, e).w.device.Some? ==> Apply(s, e).w.device == s.w.device
  {
    hide CheckFSType, CarvedBytes, AskedBytes, PvSize, DisplayedNumber, NamesType, Without, WasReleasedForDeletion;
  }

  /** Once a format has left something that cannot be parsed, no publish succeeds ever again, and the
      device stays as it is until it is collected. */
  lemma {:induction false} StuckForEver(run: seq<State>, events: seq<Event>, i: nat, j: nat)
    requires IsRun(run, events) && i <= j < |run| && Stuck(run[i])
    ensures Stuck(run[j])
    ensures run[i].w.device.Some? && run[j].w.device.Some? ==> run[j].w.device == run[i].w.device
    ensures run[i].w.device.None? ==> run[j].w.device.None?
  {
    hide Enabled, Apply, Initial, Inv, Stuck;
    if i < j {
      StuckForEver(run, events, i, j - 1);
      RunKeepsInv(run, events, j - 1);
      StepKeepsStuck(run[j - 1], events[j - 1]);
      if run[j - 1].w.device.None? {
        StuckStaysWithout(run[j - 1], events[j - 1]);
      }
    }
  }

  lemma StuckStaysWithout(s: State, e: Event)
    requires Inv(s) && Enabled(s, e) && Stuck(s) && s.w.device.None?
    ensures Apply(s, e).w.device.None?
  {
    hide Stage, CheckFSType, Without, WasReleasedForDeletion;
  }

  /** Such a run, at a capacity for which the driver's size comparison is right, and of a publish that
      would have succeeded had it not died. */
  lemma HalfFormatGetsStuck() returns (run: seq<State>, events: seq<Event>)
    ensures IsRun(run, events) && |run| == |events| + 1 && |events| == 5
    ensures events[1] == PublishStart(BLANK_REQUEST) && Publish(run[1].w, BLANK_REQUEST, STAGES).1
    ensures events[4].FormatDies? && Stuck(run[5])
    ensures run[5].w.device.Some? && Redisplayable(run[5].w.capacity)
  {
    hide Stage, IsRun, CheckFSType, NamesType, Publish;
    WouldSucceed();
    var req := BLANK_REQUEST;
    var made := NEW_VOLUME.(free := 0, device := Some(Device(GIB, "data" + "\n", "")), phase := Bound, lvcreates := 1);
    BlankStages(made);
    var s := State(NEW_VOLUME, 0, {Copy(0, Pending, true, [])}, None, None, Resting);
    run, events := [s], [];
    StartsRun(s);
    var t := Apply(s, BindPhase);
    Extend(run, events, BindPhase, t);
    run, events, s := run + [t], events + [BindPhase], t;
    t := s.(call := Some(Call(req, 0, true)));
    Extend(run, events, PublishStart(req), t);
    run, events, s := run + [t], events + [PublishStart(req)], t;
    StageStep(s, 0, req, made);
    t := s.(w := made, call := Some(Call(req, 1, true)));
    Extend(run, events, PublishStage, t);
    run, events, s := run + [t], events + [PublishStage], t;
    StageStep(s, 1, req, made);
    t := s.(w := made, call := Some(Call(req, 2, true)));
    Extend(run, events, PublishStage, t);
    run, events, s := run + [t], events + [PublishStage], t;
    t := Apply(s, FormatDies("", ""));
    Extend(run, events, FormatDies("", ""), t);
    run, events := run + [t], events + [FormatDies("", "")];
  }

  const BLANK_REQUEST := Request("ext4", true, "data" + "\n", "", FormattedRequest().newFile, FormattedRequest().newBlkid)

  lemma WouldSucceed()
    ensures Publish(NEW_VOLUME.(phase := Bound), BLANK_REQUEST, STAGES).1
  {
    hide CheckFSType, NamesType, Publish, AskedBytes, CarvedBytes;
    Outputs();
    OneGiB();
    ExportNamesType("x", "ext4");
    FirstPublishSucceedsExactly(NEW_VOLUME.(phase := Bound), BLANK_REQUEST);
  }

  lemma BlankStages(made: World)
    requires made == NEW_VOLUME.(free := 0, device := Some(Device(GIB, "data" + "\n", "")), phase := Bound, lvcreates := 1)
    ensures Stage(0, NEW_VOLUME.(phase := Bound), BLANK_REQUEST, true) == Some(made)
    ensures Stage(1, made, BLANK_REQUEST, true) == Some(made)
    ensures CheckFSType(Some("data" + "\n"), Some("")) == Ok("") && CheckFSType(Some(""), Some("")).Err?
  {
    Outputs();
    hide CheckFSType, AskedBytes, CarvedBytes;
    OneGiB();
  }

  lemma Outputs()
    ensures CheckFSType(Some("data" + "\n"), Some("")) == Ok("") && CheckFSType(Some(""), Some("")).Err?
  {
    DataIsBlank("", "\n", Some(""));
    assert "" + "data" + "\n" == "data" + "\n";
    assert Lines("") == [""] && Fields("") == [""];
  }
}
