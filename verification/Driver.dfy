/** Publishing, unpublishing and collecting one volume, with every point at which the process can
    die or an outside command can fail. */
module Driver {
  import opened Wrappers
  import opened Rounding
  import opened Devices
  import opened Volumes

  const GC_TAG := "finalizers.localvolume.kubernetes.io/gc"

  // --------------------------------------------------------------- finalizers

  function Without(s: seq<string>, x: string): seq<string> {
    if s == [] then []
    else if s[|s| - 1] == x then Without(s[..|s| - 1], x)
    else Without(s[..|s| - 1], x) + [s[|s| - 1]]
  }

  method SliceRemoveString(slice: seq<string>, s: string) returns (result: seq<string>)
    ensures result == Without(slice, s)
  {
    result := [];
    for i := 0 to |slice|
      invariant result == Without(slice[..i], s)
    {
      assert slice[..i + 1][..i] == slice[..i];
      if slice[i] != s {
        result := result + [slice[i]];
      }
    }
    assert slice[..|slice|] == slice;
  }

  /** Removal works part by part, so the other finalizers keep their order; it leaves no `x` and
      nothing else goes. */
  lemma {:induction false} WithoutKeepsOrder(a: seq<string>, b: seq<string>, x: string)
    ensures Without(a + b, x) == Without(a, x) + Without(b, x)
    ensures x !in Without(b, x)
    ensures x !in b ==> Without(b, x) == b
    ensures multiset(Without(b, x)) == multiset(b)[x := 0]
  {
    if b == [] {
      assert a + b == a;
    } else {
      var last := |b| - 1;
      assert (a + b)[..|a + b| - 1] == a + b[..last];
      assert b == b[..last] + [b[last]];
      WithoutKeepsOrder(a, b[..last], x);
    }
  }

  function WithTag(finalizers: seq<string>): seq<string> {
    if GC_TAG in finalizers then finalizers else finalizers + [GC_TAG]
  }

  /** Collecting gives back the finalizers there were before publishing. */
  lemma TagThenRemove(finalizers: seq<string>)
    requires GC_TAG !in finalizers
    ensures Without(WithTag(finalizers), GC_TAG) == finalizers
  {
    WithoutKeepsOrder(finalizers, [GC_TAG], GC_TAG);
    WithoutKeepsOrder([], finalizers, GC_TAG);
  }

  // -------------------------------------------------------------------- world

  /** A logical volume: its size and what `file` and `blkid` print for it. */
  datatype Device = Device(bytes: nat, file: string, blkid: string)

  /** The group's free bytes, the device, its mount at the target, and the volume object. The
      counters say how often the device was created and formatted. */
  datatype World = World(
    free: nat, device: Option<Device>, mounted: bool,
    capacity: nat, phase: Phase, deletePolicy: bool, annotated: bool, finalizers: seq<string>,
    lvcreates: nat, mkfses: nat)

  /** The file system to make, whether the type of volume is linear, and what `file` and `blkid` print
      for the volume when it is new and when mkfs has been at it. */
  datatype Request = Request(
    fsType: string, linear: bool, newFile: string, newBlkid: string, madeFile: string, madeBlkid: string)

  /** A mkfs that succeeds leaves a device whose type is found. */
  predicate Makes(req: Request) {
    NamesType(req.madeFile, req.madeBlkid, req.fsType)
  }

  function Detected(d: Device): Result<string> {
    CheckFSType(Some(d.file), Some(d.blkid))
  }

  // ---------------------------------------------------------- publish, by stage

  const STAGES := 6

  /** An unknown type of volume makes nothing and is no error. */
  function CreateStage(w: World, req: Request): Option<World> {
    var bytes := CarvedBytes(w.capacity);
    if w.device.Some? || !req.linear then Some(w)
    else if AskedBytes(w.capacity) == 0 || bytes > w.free then None
    else Some(w.(device := Some(Device(bytes, req.newFile, req.newBlkid)), free := w.free - bytes,
                 lvcreates := w.lvcreates + 1))
  }

  function CheckStage(w: World): Option<World> {
    if w.device.Some? && Detected(w.device.value).Ok? then Some(w) else None
  }

  function FormatStage(w: World, req: Request): Option<World> {
    if w.device.None? || Detected(w.device.value) != Ok("") then Some(w)
    else if !Makes(req) then None
    else Some(w.(device := Some(w.device.value.(file := req.madeFile, blkid := req.madeBlkid)),
                 mkfses := w.mkfses + 1))
  }

  function MountStage(w: World): Option<World> {
    Some(w.(mounted := true))
  }

  /** `lvextend` rounds up to extents like `lvcreate`, and refuses a size that is not larger. */
  function ResizeStage(w: World, newCreated: bool): Option<World> {
    var bytes := CarvedBytes(w.capacity);
    if newCreated then Some(w)
    else if w.device.None? then None
    else if DisplayedNumber(w.device.value.bytes) >= PvSize(w.capacity).0 then Some(w)
    else if bytes <= w.device.value.bytes || bytes - w.device.value.bytes > w.free then None
    else Some(w.(device := Some(w.device.value.(bytes := bytes)), free := w.free - (bytes - w.device.value.bytes)))
  }

  function TagStage(w: World): Option<World> {
    Some(if w.annotated then w else w.(annotated := true, finalizers := WithTag(w.finalizers)))
  }

  function Stage(i: nat, w: World, req: Request, newCreated: bool): Option<World>
    requires i < STAGES
  {
    match i
    case 0 => CreateStage(w, req)
    case 1 => CheckStage(w)
    case 2 => FormatStage(w, req)
    case 3 => MountStage(w)
    case 4 => ResizeStage(w, newCreated)
    case _ => TagStage(w)
  }

  /** Runs the stages from `i` on; the call dies when it reaches stage `stop`. */
  function From(w: World, req: Request, newCreated: bool, i: nat, stop: nat): (World, bool)
    requires i <= STAGES
    decreases STAGES - i
  {
    if i == STAGES then (w, true)
    else if i == stop then (w, false)
    else match Stage(i, w, req, newCreated)
         case None => (w, false)
         case Some(w') => From(w', req, newCreated, i + 1, stop)
  }

  function Publish(w: World, req: Request, stop: nat): (World, bool) {
    From(w, req, w.device.None?, 0, stop)
  }

  /** Where a publish dies: when it reaches a stage, or in the middle of a format, where mkfs fails or is
      killed and leaves a device for which `file` and `blkid` may print anything. */
  datatype Death = AtStage(stop: nat) | InFormat(file: string, blkid: string)

  const FORMAT := 2

  function Stop(d: Death): nat {
    if d.AtStage? then d.stop else FORMAT
  }

  predicate Blank(w: World) {
    w.device.Some? && Detected(w.device.value) == Ok("")
  }

  function Garbled(w: World, file: string, blkid: string): World
    requires w.device.Some?
  {
    w.(device := Some(w.device.value.(file := file, blkid := blkid)), mkfses := w.mkfses + 1)
  }

  /** What a death leaves of a publish that came to its stage. */
  function Die(result: (World, bool), d: Death): (World, bool) {
    if d.InFormat? then (if Blank(result.0) then Garbled(result.0, d.file, d.blkid) else result.0, false) else result
  }

  function Attempt(w: World, req: Request, d: Death): (World, bool) {
    Die(Publish(w, req, Stop(d)), d)
  }

  /** One step of the loop over the stages. */
  lemma OneStage(w: World, req: Request, newCreated: bool, i: nat, stop: nat)
    requires i <= STAGES
    ensures i == STAGES ==> From(w, req, newCreated, i, stop) == (w, true)
    ensures i < STAGES && (i == stop || Stage(i, w, req, newCreated).None?) ==>
              From(w, req, newCreated, i, stop) == (w, false)
    ensures i < STAGES && i != stop && Stage(i, w, req, newCreated).Some? ==>
              From(w, req, newCreated, i, stop)
              == From(Stage(i, w, req, newCreated).value, req, newCreated, i + 1, stop)
  {
  }

  lemma ExistingIsKept(w: World, req: Request)
    ensures w.device.Some? ==> CreateStage(w, req) == Some(w)
  {
  }

  lemma NewIsNotResized(w: World)
    ensures ResizeStage(w, true) == Some(w)
  {
  }

  // ------------------------------------------------------ the node's operations

  class Node {
    var free: nat
    var device: Option<Device>
    var mounted: bool
    var capacity: nat
    var phase: Phase
    var deletePolicy: bool
    var annotated: bool
    var finalizers: seq<string>
    ghost var lvcreates: nat
    ghost var mkfses: nat

    ghost function Model(): World
      reads this
    {
      World(free, device, mounted, capacity, phase, deletePolicy, annotated, finalizers, lvcreates, mkfses)
    }

    method CreateVolume(req: Request) returns (ok: bool)
      requires device.None?
      modifies this
      ensures ok <==> CreateStage(old(Model()), req).Some?
      ensures Model() == if ok then CreateStage(old(Model()), req).value else old(Model())
    {
      if !req.linear {
        return true;
      }
      var (amount, unit) := PvSize(capacity);
      if amount * UnitBytes(unit) == 0 || CarvedBytes(capacity) > free {
        return false;
      }
      device := Some(Device(CarvedBytes(capacity), req.newFile, req.newBlkid));
      free := free - CarvedBytes(capacity);
      lvcreates := lvcreates + 1;
      return true;
    }

    method FormatIfBlank(req: Request, found: string) returns (ok: bool)
      requires device.Some? && Detected(device.value) == Ok(found)
      modifies this
      ensures ok <==> FormatStage(old(Model()), req).Some?
      ensures Model() == if ok then FormatStage(old(Model()), req).value else old(Model())
    {
      hide CheckFSType, NamesType;
      if found == "" {
        if !Makes(req) {
          return false;
        }
        device := Some(device.value.(file := req.madeFile, blkid := req.madeBlkid));
        mkfses := mkfses + 1;
      }
      return true;
    }

    method ResizeVolume() returns (ok: bool)
      modifies this
      ensures ok <==> ResizeStage(old(Model()), false).Some?
      ensures Model() == if ok then ResizeStage(old(Model()), false).value else old(Model())
    {
      if device.None? {
        return false;
      }
      if DisplayedNumber(device.value.bytes) >= PvSize(capacity).0 {
        return true;
      }
      var bytes := CarvedBytes(capacity);
      if bytes <= device.value.bytes || bytes - device.value.bytes > free {
        return false;
      }
      free := free - (bytes - device.value.bytes);
      device := Some(device.value.(bytes := bytes));
      return true;
    }

    method UpdatePVPublishSuccessTag(getSucceeds: bool, patchSucceeds: bool) returns (ok: bool)
      modifies this
      ensures ok <==> getSucceeds && (old(annotated) || patchSucceeds)
      ensures Some(Model()) == if ok then TagStage(old(Model())) else Some(old(Model()))
    {
      if !getSucceeds {
        return false;
      }
      if !annotated {
        if !patchSucceeds {
          return false;
        }
        annotated := true;
        if GC_TAG !in finalizers {
          finalizers := finalizers + [GC_TAG];
        }
      }
      return true;
    }

    method NodePublishVolume(req: Request, death: Death) returns (ok: bool)
      modifies this
      ensures (Model(), ok) == Attempt(old(Model()), req, death)
    {
      hide CheckFSType, CreateStage, From;
      var volumeNewCreated, stop := device.None?, Stop(death);
      OneStage(Model(), req, volumeNewCreated, 0, stop);
      if stop == 0 {
        return false;
      }
      if device.None? {
        var created := CreateVolume(req);
        if !created {
          return false;
        }
      } else {
        ExistingIsKept(Model(), req);
      }
      ok := PublishDevice(req, volumeNewCreated, death);
    }

    /** The part of a publish that checks, formats and mounts the device, and what follows. */
    method PublishDevice(req: Request, volumeNewCreated: bool, death: Death) returns (ok: bool)
      modifies this
      ensures (Model(), ok) == Die(From(old(Model()), req, volumeNewCreated, 1, Stop(death)), death)
    {
      hide CheckFSType, CreateStage, FormatStage, ResizeStage, TagStage, From;
      var stop := Stop(death);
      OneStage(Model(), req, volumeNewCreated, 1, stop);
      if stop == 1 || device.None? {
        return false;
      }
      var exitFSType := CheckFSType(Some(device.value.file), Some(device.value.blkid));
      if exitFSType.Err? {
        return false;
      }
      OneStage(Model(), req, volumeNewCreated, FORMAT, stop);
      if stop == FORMAT {
        if death.InFormat? && exitFSType.value == "" {
          device := Some(device.value.(file := death.file, blkid := death.blkid));
          mkfses := mkfses + 1;
        }
        return false;
      }
      var formatted := FormatIfBlank(req, exitFSType.value);
      if !formatted {
        return false;
      }
      OneStage(Model(), req, volumeNewCreated, 3, stop);
      if stop == 3 {
        return false;
      }
      if !mounted {
        mounted := true;
      }
      ok := FinishPublish(req, volumeNewCreated, stop);
    }

    /** The rest of a publish, once the volume is mounted. */
    method FinishPublish(req: Request, volumeNewCreated: bool, stop: nat) returns (ok: bool)
      modifies this
      ensures (Model(), ok) == From(old(Model()), req, volumeNewCreated, 4, stop)
    {
      hide ResizeStage, TagStage, From;
      ghost var w := Model();
      OneStage(w, req, volumeNewCreated, 4, stop);
      if stop == 4 {
        return false;
      }
      if !volumeNewCreated {
        var resized := ResizeVolume();
        if !resized {
          return false;
        }
      } else {
        NewIsNotResized(w);
      }
      w := Model();
      OneStage(w, req, volumeNewCreated, 5, stop);
      if stop == 5 {
        return false;
      }
      ok := UpdatePVPublishSuccessTag(true, true);
      OneStage(Model(), req, volumeNewCreated, 6, stop);
    }

    method NodeUnpublishVolume(checkSucceeds: bool, unmountSucceeds: bool) returns (ok: bool)
      modifies this
      ensures ok <==> checkSucceeds && (!old(mounted) || unmountSucceeds)
      ensures Model() == old(Model()).(mounted := if ok then false else old(mounted))
    {
      if !checkSucceeds {
        return false;
      }
      if !mounted {
        return true;
      }
      if !unmountSucceeds {
        return false;
      }
      mounted := false;
      return true;
    }

    /** The garbage collector. A failed removal of the device is not reported as an error. */
    method CollectVolume(stop: nat) returns (ok: bool)
      modifies this
      ensures (Model(), ok) == Collect(old(Model()), stop)
    {
      if phase == Released && deletePolicy && GC_TAG in finalizers {
        if stop == 0 {
          return true;
        }
        if device.Some? {
          free := free + device.value.bytes;
          device := None;
        }
        if stop == 1 {
          return false;
        }
        finalizers := SliceRemoveString(finalizers, GC_TAG);
      }
      return true;
    }
  }

  predicate Collectable(w: World) {
    w.phase == Released && w.deletePolicy && GC_TAG in w.finalizers
  }

  function RemoveDevice(w: World): World {
    if w.device.Some? then w.(free := w.free + w.device.value.bytes, device := None) else w
  }

  function Collect(w: World, stop: nat): (World, bool) {
    if !Collectable(w) || stop == 0 then (w, true)
    else if stop == 1 then (RemoveDevice(w), false)
    else (RemoveDevice(w).(finalizers := Without(w.finalizers, GC_TAG)), true)
  }

  /** A collection changes something only for a released volume with the policy to delete and the
      finalizer. Then it gives the device's bytes back to the group, and takes the finalizer, and that
      one alone, off the volume; nothing else changes. */
  lemma CollectExactly(w: World, stop: nat)
    ensures Collect(w, stop).0 != w ==> w.phase == Released && w.deletePolicy && GC_TAG in w.finalizers
    ensures w.phase == Released && w.deletePolicy && GC_TAG in w.finalizers ==>
              var gone := w.(device := None, free := Space(w));
              && Collect(w, 0) == (w, true) && Collect(w, 1) == (gone, false)
              && Collect(w, 2) == (gone.(finalizers := Without(w.finalizers, GC_TAG)), true)
  {
  }

  // ------------------------------------------------------- space and the object

  /** The bytes of the group that are free or the device's. */
  function Space(w: World): nat {
    w.free + if w.device.Some? then w.device.value.bytes else 0
  }

  /** The volume object but for annotation and finalizer. */
  predicate SameObject(w: World, w': World) {
    && w'.capacity == w.capacity && w'.phase == w.phase && w'.deletePolicy == w.deletePolicy
    && Without(w'.finalizers, GC_TAG) == Without(w.finalizers, GC_TAG)
  }

  lemma StageKeepsSpace(i: nat, w: World, req: Request, newCreated: bool)
    requires i < STAGES && Stage(i, w, req, newCreated).Some?
    ensures var w' := Stage(i, w, req, newCreated).value; Space(w') == Space(w) && SameObject(w, w')
  {
    hide CheckFSType, NamesType, CarvedBytes, AskedBytes, PvSize, DisplayedNumber, Without, WithTag;
    TagKeepsOthers(w.finalizers);
  }

  lemma TagKeepsOthers(finalizers: seq<string>)
    ensures Without(WithTag(finalizers), GC_TAG) == Without(finalizers, GC_TAG)
  {
    WithoutKeepsOrder(finalizers, [GC_TAG], GC_TAG);
    assert [GC_TAG][..0] == [];
  }

  /** However far a publish gets, no byte of the group is lost or made, the object is the same but for
      the annotation and the collector's finalizer, and other finalizers keep their order. */
  lemma {:induction false} PublishKeepsSpace(w: World, req: Request, newCreated: bool, i: nat, stop: nat)
    requires i <= STAGES
    ensures var w' := From(w, req, newCreated, i, stop).0; Space(w') == Space(w) && SameObject(w, w')
    decreases STAGES - i
  {
    hide Stage, From, Space, Without;
    OneStage(w, req, newCreated, i, stop);
    if i < STAGES && i != stop && Stage(i, w, req, newCreated).Some? {
      StageKeepsSpace(i, w, req, newCreated);
      PublishKeepsSpace(Stage(i, w, req, newCreated).value, req, newCreated, i + 1, stop);
    }
  }

  /** What a stage leaves for the ones after it, whatever the device. */
  lemma StageLeaves(i: nat, w: World, req: Request, newCreated: bool)
    requires i < STAGES && Stage(i, w, req, newCreated).Some?
    requires i > 1 ==> Settled(1, w)
    requires i > 2 ==> Settled(2, w)
    requires i > 3 ==> w.mounted
    ensures var w' := Stage(i, w, req, newCreated).value;
            && (i > 0 ==> Settled(1, w')) && (i > 1 ==> Settled(2, w')) && (i > 2 ==> w'.mounted)
            && (i > 4 ==> w'.annotated)
  {
    hide CheckFSType, NamesType, CarvedBytes, AskedBytes, PvSize, DisplayedNumber, FormatStage;
    if i == 2 {
      FormatSettles(w, req);
    }
  }

  /** A publish that succeeds leaves a device with a recognised file system, mounted and tagged. */
  lemma {:induction false} PublishLeaves(w: World, req: Request, newCreated: bool, i: nat)
    requires i <= STAGES && From(w, req, newCreated, i, STAGES).1
    requires i > 1 ==> Settled(1, w)
    requires i > 2 ==> Settled(2, w)
    requires i > 3 ==> w.mounted
    requires i > 5 ==> w.annotated
    ensures var w' := From(w, req, newCreated, i, STAGES).0; Settled(2, w') && w'.mounted && w'.annotated
    decreases STAGES - i
  {
    hide Stage, From, Settled;
    OneStage(w, req, newCreated, i, STAGES);
    if i < STAGES {
      StageLeaves(i, w, req, newCreated);
      PublishLeaves(Stage(i, w, req, newCreated).value, req, newCreated, i + 1);
    }
  }

  /** The whole life of a volume leaves no trace: publishing a new one, releasing it and collecting it gives
      the group its bytes and the object its finalizers back. */
  lemma PublishThenCollect(w: World, req: Request)
    requires w.device.None? && GC_TAG !in w.finalizers && !w.annotated && Publish(w, req, STAGES).1
    ensures var released := Publish(w, req, STAGES).0.(mounted := false, phase := Released, deletePolicy := true);
            var end := Collect(released, 2).0;
            end.device.None? && end.free == w.free && end.finalizers == w.finalizers
  {
    var p := Publish(w, req, STAGES).0;
    PublishKeepsSpace(w, req, w.device.None?, 0, STAGES);
    PublishTags(w, req, w.device.None?, 0);
    WithoutKeepsOrder([], w.finalizers, GC_TAG);
    hide From, Without;
    CollectExactly(p.(mounted := false, phase := Released, deletePolicy := true), 2);
  }

  /** A publish that succeeds on an untagged volume tags it. */
  lemma {:induction false} PublishTags(w: World, req: Request, newCreated: bool, i: nat)
    requires i <= STAGES && From(w, req, newCreated, i, STAGES).1
    requires if i < STAGES then !w.annotated else GC_TAG in w.finalizers
    ensures GC_TAG in From(w, req, newCreated, i, STAGES).0.finalizers
    decreases STAGES - i
  {
    hide CheckFSType, NamesType, CarvedBytes, AskedBytes, PvSize, DisplayedNumber, From;
    OneStage(w, req, newCreated, i, STAGES);
    if i < STAGES {
      PublishTags(Stage(i, w, req, newCreated).value, req, newCreated, i + 1);
    }
  }

  // ------------------------------------------------------------ a volume that grows

  /** A device that seems too small and can grow is extended to the carved size, keeps its contents, and
      takes what it grows by from the group. */
  lemma ResizeGrows(w: World)
    requires w.device.Some? && DisplayedNumber(w.device.value.bytes) < PvSize(w.capacity).0
    requires w.device.value.bytes < CarvedBytes(w.capacity) <= Space(w)
    ensures ResizeStage(w, false).Some?
    ensures var w' := ResizeStage(w, false).value;
            && w'.device == Some(w.device.value.(bytes := CarvedBytes(w.capacity)))
            && Space(w') == Space(w) && w' == w.(device := w'.device, free := w'.free)
  {
    hide CarvedBytes, DisplayedNumber, PvSize;
  }

  lemma WholeGiBs(capacity: nat)
    requires GIB <= capacity < TIB
    ensures CarvedBytes(capacity) == capacity / GIB * GIB && PvSize(capacity).0 == capacity / GIB
    ensures DisplayedNumber(CarvedBytes(capacity)) == capacity / GIB
  {
    CarvedGigabytes(capacity / GIB);
  }

  lemma GrownResizes(w: World, before: nat)
    requires w.device.Some? && w.device.value.bytes == CarvedBytes(before)
    requires GIB <= before < TIB && GIB <= w.capacity < TIB && before / GIB <= w.capacity / GIB
    ensures ResizeStage(w, false).Some? <==> CarvedBytes(w.capacity) <= Space(w)
    ensures ResizeStage(w, false).Some? ==>
              var w' := ResizeStage(w, false).value;
              w'.device == Some(w.device.value.(bytes := CarvedBytes(w.capacity)))
  {
    WholeGiBs(before);
    WholeGiBs(w.capacity);
    hide CarvedBytes, DisplayedNumber, PvSize;
  }

  /** A recognised volume whose capacity was raised, between one GiB and one TiB, can be published if and
      only if the group has room for the growth; it then has the new size and its old contents. */
  lemma GrownVolumeIsPublishedExactlyWhenItFits(w: World, req: Request, before: nat)
    requires Settled(2, w) && w.device.value.bytes == CarvedBytes(before)
    requires GIB <= before < TIB && GIB <= w.capacity < TIB && before / GIB <= w.capacity / GIB
    ensures Publish(w, req, STAGES).1 <==> CarvedBytes(w.capacity) <= Space(w)
    ensures Publish(w, req, STAGES).1 ==>
              var w' := Publish(w, req, STAGES).0;
              && Sized(w') && w'.device == Some(w.device.value.(bytes := CarvedBytes(w.capacity)))
              && Space(w') == Space(w) && w'.mounted && w'.annotated
  {
    PublishKeepsSpace(w, req, false, 0, STAGES);
    hide CheckFSType, NamesType, ResizeStage, CarvedBytes, AskedBytes, From;
    OneStage(w, req, false, 0, STAGES);
    OneStage(w, req, false, 1, STAGES);
    OneStage(w, req, false, 2, STAGES);
    var m := w.(mounted := true);
    OneStage(w, req, false, 3, STAGES);
    GrownResizes(m, before);
    OneStage(m, req, false, 4, STAGES);
    if ResizeStage(m, false).Some? {
      var r := ResizeStage(m, false).value;
      OneStage(r, req, false, 5, STAGES);
      OneStage(TagStage(r).value, req, false, 6, STAGES);
      ResizeKeepsTheRest(m);
    }
  }

  lemma ResizeKeepsTheRest(w: World)
    requires ResizeStage(w, false).Some?
    ensures var w' := ResizeStage(w, false).value;
            w' == w.(device := w'.device, free := w'.free)
  {
    hide CarvedBytes, DisplayedNumber, PvSize;
  }

  // ---------------------------------------------------- crash and retry converge

  /** The device, if there is one, was carved for the volume's present capacity. */
  predicate Sized(w: World) {
    w.device.Some? ==> w.device.value.bytes == CarvedBytes(w.capacity)
  }

  /** The capacities for which the driver finds a volume it carved large enough. */
  predicate Redisplayable(capacity: nat) {
    MIB <= capacity < 1021 * MIB || GIB <= capacity < TIB
  }

  /** Stage `i` has nothing left to do. */
  predicate Settled(i: nat, w: World) {
    match i
    case 0 => w.device.Some?
    case 1 => w.device.Some? && Detected(w.device.value).Ok?
    case 2 => w.device.Some? && Detected(w.device.value).Ok? && Detected(w.device.value) != Ok("")
    case 3 => w.mounted
    case 4 => w.device.Some?
    case _ => w.annotated
  }

  predicate SettledBelow(i: nat, w: World) {
    forall j: nat | j < i :: Settled(j, w)
  }

  lemma OwnVolumeIsLargeEnough(w: World, newCreated: bool)
    requires Sized(w) && Redisplayable(w.capacity) && w.device.Some?
    ensures ResizeStage(w, newCreated) == Some(w)
  {
    DisplayComparesExactly(w.capacity);
    hide CarvedBytes, PvSize, DisplayedNumber;
  }

  lemma SettledStageDoesNothing(i: nat, w: World, req: Request, newCreated: bool)
    requires i < STAGES && Settled(i, w) && Sized(w) && Redisplayable(w.capacity)
    ensures Stage(i, w, req, newCreated) == Some(w)
  {
    if i == 4 {
      OwnVolumeIsLargeEnough(w, newCreated);
    }
    hide CheckFSType, ResizeStage, CarvedBytes, AskedBytes;
  }

  /** A stage that succeeds settles itself and unsettles none before it; only the first can create. */
  lemma StageSettles(i: nat, w: World, req: Request, newCreated: bool)
    requires i < STAGES && SettledBelow(i, w) && Sized(w) && Redisplayable(w.capacity)
    requires Stage(i, w, req, newCreated).Some? && (i == 0 ==> w.device.Some? || req.linear)
    ensures var w' := Stage(i, w, req, newCreated).value;
            SettledBelow(i + 1, w') && Sized(w') && w'.capacity == w.capacity
  {
    var w' := Stage(i, w, req, newCreated).value;
    if i > 0 {
      assert Settled(0, w);
    }
    if i == 4 {
      OwnVolumeIsLargeEnough(w, newCreated);
    } else if i == 2 {
      assert Settled(1, w);
      FormatSettles(w, req);
    }
    hide CheckFSType, ResizeStage, FormatStage, CarvedBytes, AskedBytes;
    forall j: nat | j < i + 1 ensures Settled(j, w') {
      if j < i {
        assert Settled(j, w);
      }
    }
  }

  lemma FormatSettles(w: World, req: Request)
    requires w.device.Some? && Detected(w.device.value).Ok? && FormatStage(w, req).Some?
    ensures var w' := FormatStage(w, req).value;
            && Settled(1, w') && Settled(2, w')
            && w'.device.value.bytes == w.device.value.bytes && w'.capacity == w.capacity
  {
    if Makes(req) {
      FormattedIsRecognised(req.madeFile, req.madeBlkid, req.fsType);
      assert req.fsType != "";
    }
    hide CheckFSType, NamesType;
  }

  lemma {:induction false} SettledStagesAreSkipped(w: World, req: Request, i: nat)
    requires i <= STAGES && SettledBelow(i, w) && Sized(w) && Redisplayable(w.capacity)
    ensures From(w, req, false, 0, STAGES) == From(w, req, false, i, STAGES)
  {
    if i > 0 {
      SettledStagesAreSkipped(w, req, i - 1);
      assert Settled(i - 1, w);
      SettledStageDoesNothing(i - 1, w, req, false);
    }
  }

  /** From the second stage on it makes no difference whether this call created the volume. */
  lemma {:induction false} CreatorMakesNoDifference(w: World, req: Request, i: nat)
    requires 0 < i <= STAGES && SettledBelow(i, w) && Sized(w) && Redisplayable(w.capacity)
    ensures From(w, req, true, i, STAGES) == From(w, req, false, i, STAGES)
    decreases STAGES - i
  {
    hide Sized, Redisplayable, SettledBelow;
    if i < STAGES {
      StagesAgree(w, req, i);
      if Stage(i, w, req, true).Some? {
        StageSettles(i, w, req, true);
        CreatorMakesNoDifference(Stage(i, w, req, true).value, req, i + 1);
      }
    }
  }

  lemma StagesAgree(w: World, req: Request, i: nat)
    requires 0 < i < STAGES && SettledBelow(i, w) && Sized(w) && Redisplayable(w.capacity)
    ensures Stage(i, w, req, true) == Stage(i, w, req, false)
  {
    assert Settled(0, w);
    if i == 4 {
      OwnVolumeIsLargeEnough(w, true);
      OwnVolumeIsLargeEnough(w, false);
    }
  }

  lemma {:induction false} ResumeAfterCrash(w: World, req: Request, newCreated: bool, i: nat, stop: nat)
    requires 0 < i <= STAGES && SettledBelow(i, w) && Sized(w) && Redisplayable(w.capacity)
    ensures var crashed := From(w, req, newCreated, i, stop).0;
            && crashed.device.Some?
            && From(crashed, req, false, 0, STAGES) == From(w, req, newCreated, i, STAGES)
    decreases STAGES - i
  {
    assert Settled(0, w);
    SettledStagesAreSkipped(w, req, i);
    CreatorMakesNoDifference(w, req, i);
    hide Sized, Redisplayable, SettledBelow, Stage;
    if i < STAGES && i != stop && Stage(i, w, req, newCreated).Some? {
      StageSettles(i, w, req, newCreated);
      ResumeAfterCrash(Stage(i, w, req, newCreated).value, req, newCreated, i + 1, stop);
    }
  }

  /** However far a publish got before it died, publishing again reaches what one uninterrupted
      publish would have reached. */
  lemma PublishRetryConverges(w: World, req: Request, stop: nat)
    requires Sized(w) && Redisplayable(w.capacity)
    ensures Publish(Publish(w, req, stop).0, req, STAGES) == Publish(w, req, STAGES)
  {
    if stop > 0 && Stage(0, w, req, w.device.None?).Some? {
      var w1 := Stage(0, w, req, w.device.None?).value;
      if w.device.Some? || req.linear {
        StageSettles(0, w, req, w.device.None?);
        ResumeAfterCrash(w1, req, w.device.None?, 1, stop);
        hide Sized, Redisplayable, SettledBelow, Stage;
        assert Publish(w, req, stop) == From(w1, req, w.device.None?, 1, stop);
        assert Publish(w, req, STAGES) == From(w1, req, w.device.None?, 1, STAGES);
      } else {
        assert Publish(w, req, stop).0 == w;
      }
    }
  }

  lemma {:induction false} FromKeepsSized(w: World, req: Request, newCreated: bool, i: nat, stop: nat)
    requires i <= STAGES && Sized(w) && Redisplayable(w.capacity)
    ensures Sized(From(w, req, newCreated, i, stop).0) && From(w, req, newCreated, i, stop).0.capacity == w.capacity
    decreases STAGES - i
  {
    if i < STAGES && i != stop && Stage(i, w, req, newCreated).Some? {
      if w.device.Some? {
        OwnVolumeIsLargeEnough(w, newCreated);
      }
      hide Redisplayable, CarvedBytes, AskedBytes, CheckFSType, DisplayedNumber, PvSize, From;
      FromKeepsSized(Stage(i, w, req, newCreated).value, req, newCreated, i + 1, stop);
      OneStage(w, req, newCreated, i, stop);
    }
  }

  /** For a volume this driver carved, the resize stage lets a publish through exactly when the displayed
      number compares right. */
  lemma ResizeSucceedsExactly(w: World)
    requires w.device.Some? && Sized(w) && MIB <= w.capacity
    ensures ResizeStage(w, false).Some? <==> Redisplayable(w.capacity)
  {
    DisplayComparesExactly(w.capacity);
    hide CarvedBytes, PvSize, DisplayedNumber;
  }

  /** A volume this driver carved, formatted or not, can be published if and only if its type can be told
      or made and its capacity is one for which the displayed number compares right; from one TiB on
      it never can. */
  lemma RepublishSucceedsExactly(w: World, req: Request)
    requires w.device.Some? && Sized(w) && MIB <= w.capacity
    ensures Publish(w, req, STAGES).1 <==>
            && Detected(w.device.value).Ok? && (Detected(w.device.value) == Ok("") ==> Makes(req))
            && Redisplayable(w.capacity)
  {
    hide CheckFSType, NamesType, ResizeStage, CarvedBytes, AskedBytes, Redisplayable, From;
    OneStage(w, req, false, 0, STAGES);
    OneStage(w, req, false, 1, STAGES);
    OneStage(w, req, false, 2, STAGES);
    if FormatStage(w, req).Some? {
      var f := FormatStage(w, req).value;
      var m := f.(mounted := true);
      OneStage(f, req, false, 3, STAGES);
      ResizeSucceedsExactly(m);
      OneStage(m, req, false, 4, STAGES);
      if ResizeStage(m, false).Some? {
        var r := ResizeStage(m, false).value;
        OneStage(r, req, false, 5, STAGES);
        OneStage(TagStage(r).value, req, false, 6, STAGES);
      }
    }
  }

  /** A first publish succeeds if and only if there is something to carve, it fits, and the type of the
      new volume can be told or made. */
  lemma FirstPublishSucceedsExactly(w: World, req: Request)
    requires w.device.None? && req.linear
    ensures Publish(w, req, STAGES).1 <==>
            && 0 < AskedBytes(w.capacity) && CarvedBytes(w.capacity) <= w.free
            && var found := CheckFSType(Some(req.newFile), Some(req.newBlkid));
            found.Ok? && (found == Ok("") ==> Makes(req))
  {
    hide CheckFSType, NamesType, CarvedBytes, AskedBytes, From;
    OneStage(w, req, true, 0, STAGES);
    if CreateStage(w, req).Some? {
      var c := CreateStage(w, req).value;
      OneStage(c, req, true, 1, STAGES);
      OneStage(c, req, true, 2, STAGES);
      if FormatStage(c, req).Some? {
        var f := FormatStage(c, req).value;
        var m := f.(mounted := true);
        OneStage(f, req, true, 3, STAGES);
        OneStage(m, req, true, 4, STAGES);
        OneStage(m, req, true, 5, STAGES);
        OneStage(TagStage(m).value, req, true, 6, STAGES);
      }
    }
  }

  /** However far the call that created it got, a new volume has the carved size, whatever its capacity. */
  lemma {:induction false} NewVolumeKeepsSize(w: World, req: Request, i: nat, stop: nat)
    requires 0 < i <= STAGES && w.device.Some? && Sized(w)
    ensures var w' := From(w, req, true, i, stop).0;
            w'.device.Some? && Sized(w') && w'.capacity == w.capacity
    decreases STAGES - i
  {
    hide CheckFSType, NamesType, CarvedBytes, From;
    OneStage(w, req, true, i, stop);
    if i < STAGES && i != stop && Stage(i, w, req, true).Some? {
      NewVolumeKeepsSize(Stage(i, w, req, true).value, req, i + 1, stop);
    }
  }

  /** The world after a first publish that got past the creation. */
  lemma AfterFirstAttempt(w: World, req: Request, stop: nat)
    requires w.device.None? && req.linear && Publish(w, req, STAGES).1 && stop > 0
    ensures var w' := Publish(w, req, stop).0;
            w'.device.Some? && Sized(w') && w'.capacity == w.capacity && MIB <= w.capacity
  {
    AskedBounds(w.capacity);
    hide From, CarvedBytes, AskedBytes;
    OneStage(w, req, true, 0, STAGES);
    OneStage(w, req, true, 0, stop);
    NewVolumeKeepsSize(CreateStage(w, req).value, req, 1, stop);
  }

  // -------------------------------------------------------- deaths inside mkfs

  /** Worlds are compared without the number of formats begun. */
  function Uncounted(w: World): World {
    w.(mkfses := 0)
  }

  /** Publishing again from `c` succeeds and ends where publishing from `w` would. */
  predicate Converges(c: World, w: World, req: Request) {
    Publish(c, req, STAGES).1 && Uncounted(Publish(c, req, STAGES).0) == Uncounted(Publish(w, req, STAGES).0)
  }

  /** What a format left is taken for blank, or is what a whole format leaves. */
  predicate BlankOrMade(req: Request, file: string, blkid: string) {
    CheckFSType(Some(file), Some(blkid)) == Ok("") || (file == req.madeFile && blkid == req.madeBlkid)
  }

  /** What is on the device. */
  predicate Holds(w: World, file: string, blkid: string) {
    w.device.Some? && w.device.value.file == file && w.device.value.blkid == blkid
  }

  /** Publishing with a device in place comes down to these stages. */
  function Finished(w: World, req: Request): World
    requires w.device.Some?
  {
    TagStage((if Blank(w) then Garbled(w, req.madeFile, req.madeBlkid) else w).(mounted := true)).value
  }

  lemma PublishOfExisting(w: World, req: Request)
    requires w.device.Some? && Sized(w) && Redisplayable(w.capacity) && Publish(w, req, STAGES).1
    ensures Publish(w, req, STAGES).0 == Finished(w, req)
  {
    hide CheckFSType, NamesType, ResizeStage, CarvedBytes, AskedBytes, From;
    OneStage(w, req, false, 0, STAGES);
    OneStage(w, req, false, 1, STAGES);
    OneStage(w, req, false, 2, STAGES);
    var f := FormatStage(w, req).value;
    var m := f.(mounted := true);
    OneStage(f, req, false, 3, STAGES);
    OwnVolumeIsLargeEnough(m, false);
    OneStage(m, req, false, 4, STAGES);
    OneStage(m, req, false, 5, STAGES);
    OneStage(TagStage(m).value, req, false, 6, STAGES);
  }

  /** A format that dies, on a capacity that compares right: publishing again succeeds if and only if the
      type, or its absence, can be told from what was left; and it ends as one uninterrupted publish if
      and only if what was left is taken for blank or is whole. */
  lemma HalfFormatRetry(w: World, req: Request, file: string, blkid: string)
    requires Sized(w) && Redisplayable(w.capacity) && Blank(w) && Makes(req)
    ensures var c := Garbled(w, file, blkid);
            && (Publish(c, req, STAGES).1 <==> CheckFSType(Some(file), Some(blkid)).Ok?)
            && (Converges(c, w, req) <==> BlankOrMade(req, file, blkid))
  {
    var c := Garbled(w, file, blkid);
    if file == req.madeFile && blkid == req.madeBlkid {
      FormattedIsRecognised(file, blkid, req.fsType);
    }
    hide CheckFSType, NamesType, CarvedBytes, Redisplayable, Publish;
    MadeIsWhole(req);
    RepublishSucceedsExactly(w, req);
    RepublishSucceedsExactly(c, req);
    PublishOfExisting(w, req);
    if Publish(c, req, STAGES).1 {
      PublishOfExisting(c, req);
    }
  }

  lemma MadeIsWhole(req: Request)
    requires Makes(req)
    ensures CheckFSType(Some(req.madeFile), Some(req.madeBlkid)).Ok?
    ensures CheckFSType(Some(req.madeFile), Some(req.madeBlkid)) != Ok("")
  {
    FormattedIsRecognised(req.madeFile, req.madeBlkid, req.fsType);
  }

  /** If this attempt dies in a format, it leaves the device blank or whole. */
  predicate LeavesBlankOrWhole(w: World, req: Request, d: Death) {
    d.InFormat? && Blank(Publish(w, req, FORMAT).0) ==> BlankOrMade(req, d.file, d.blkid)
  }

  lemma AttemptKeepsSized(w: World, req: Request, d: Death)
    requires Sized(w) && Redisplayable(w.capacity)
    ensures Sized(Attempt(w, req, d).0) && Attempt(w, req, d).0.capacity == w.capacity
  {
    hide CheckFSType, From, CarvedBytes, Redisplayable;
    FromKeepsSized(w, req, w.device.None?, 0, Stop(d));
  }

  /** One attempt that dies anywhere, and then a retry. */
  lemma AttemptConvergesExactly(w: World, req: Request, d: Death)
    requires Sized(w) && Redisplayable(w.capacity) && Publish(w, req, STAGES).1
    ensures Converges(Attempt(w, req, d).0, w, req) <==> LeavesBlankOrWhole(w, req, d)
    ensures !LeavesBlankOrWhole(w, req, d) ==>
              && d.InFormat? && Holds(Attempt(w, req, d).0, d.file, d.blkid) && !Blank(Attempt(w, req, d).0)
              && Holds(Publish(w, req, STAGES).0, req.madeFile, req.madeBlkid)
  {
    var c := Publish(w, req, Stop(d)).0;
    AttemptKeepsSized(w, req, AtStage(Stop(d)));
    hide CheckFSType, NamesType, From, CarvedBytes, Redisplayable, Publish;
    PublishRetryConverges(w, req, Stop(d));
    if d.InFormat? && Blank(c) {
      RepublishSucceedsExactly(c, req);
      HalfFormatRetry(c, req, d.file, d.blkid);
      PublishOfExisting(c, req);
    }
  }

  /** Any number of publishes that die on the way. */
  function Attempts(w: World, req: Request, deaths: seq<Death>): World
    decreases |deaths|
  {
    if deaths == [] then w else Attempts(Attempt(w, req, deaths[0]).0, req, deaths[1..])
  }

  /** Every format that dies among them leaves the device blank or whole. */
  predicate Unspoilt(w: World, req: Request, deaths: seq<Death>)
    decreases |deaths|
  {
    deaths == [] ||
    (LeavesBlankOrWhole(w, req, deaths[0]) && Unspoilt(Attempt(w, req, deaths[0]).0, req, deaths[1..]))
  }

  /** What is not taken for blank is never written again. */
  lemma {:induction false} FromKeepsContents(w: World, req: Request, newCreated: bool, i: nat, stop: nat,
                                             file: string, blkid: string)
    requires i <= STAGES && Holds(w, file, blkid) && !Blank(w)
    ensures var w' := From(w, req, newCreated, i, stop).0; Holds(w', file, blkid) && !Blank(w')
    decreases STAGES - i
  {
    hide CheckFSType, NamesType, CarvedBytes, AskedBytes, PvSize, DisplayedNumber, From;
    OneStage(w, req, newCreated, i, stop);
    if i < STAGES && i != stop && Stage(i, w, req, newCreated).Some? {
      FromKeepsContents(Stage(i, w, req, newCreated).value, req, newCreated, i + 1, stop, file, blkid);
    }
  }

  lemma {:induction false} AttemptsKeepContents(w: World, req: Request, deaths: seq<Death>, file: string, blkid: string)
    requires Holds(w, file, blkid) && !Blank(w)
    ensures Holds(Attempts(w, req, deaths), file, blkid) && !Blank(Attempts(w, req, deaths))
    decreases |deaths|
  {
    hide CheckFSType, From;
    if deaths != [] {
      FromKeepsContents(w, req, w.device.None?, 0, Stop(deaths[0]), file, blkid);
      AttemptsKeepContents(Attempt(w, req, deaths[0]).0, req, deaths[1..], file, blkid);
    }
  }

  /** Publishing again after any number of attempts that die anywhere ends as one uninterrupted publish
      would, if and only if every format that died on the way left the device blank or whole. */
  lemma {:induction false} PublishRetriesConverge(w: World, req: Request, deaths: seq<Death>)
    requires Sized(w) && Redisplayable(w.capacity) && Publish(w, req, STAGES).1
    ensures Converges(Attempts(w, req, deaths), w, req) <==> Unspoilt(w, req, deaths)
    decreases |deaths|
  {
    hide CheckFSType, NamesType, From, CarvedBytes, Redisplayable, Publish, Attempt, LeavesBlankOrWhole, Sized;
    if deaths != [] {
      var d, rest := deaths[0], deaths[1..];
      var c := Attempt(w, req, d).0;
      AttemptConvergesExactly(w, req, d);
      AttemptKeepsSized(w, req, d);
      if LeavesBlankOrWhole(w, req, d) {
        PublishRetriesConverge(c, req, rest);
      } else {
        AttemptsKeepContents(c, req, rest, d.file, d.blkid);
        SpoiltForEver(w, Attempts(c, req, rest), req, d);
      }
    }
  }

  lemma SpoiltForEver(w: World, c: World, req: Request, d: Death)
    requires !LeavesBlankOrWhole(w, req, d) && Holds(c, d.file, d.blkid) && !Blank(c)
    requires Holds(Publish(w, req, STAGES).0, req.madeFile, req.madeBlkid)
    ensures !Converges(c, w, req)
  {
    hide CheckFSType, From;
    FromKeepsContents(c, req, c.device.None?, 0, STAGES, d.file, d.blkid);
  }

  /** If none of them dies in a format, the result is the same to the last detail, also where one
      uninterrupted publish fails. */
  lemma {:induction false} StageDeathsConverge(w: World, req: Request, deaths: seq<Death>)
    requires Sized(w) && Redisplayable(w.capacity)
    requires forall i | 0 <= i < |deaths| :: deaths[i].AtStage?
    ensures Publish(Attempts(w, req, deaths), req, STAGES) == Publish(w, req, STAGES)
    decreases |deaths|
  {
    hide CheckFSType, From, CarvedBytes, Redisplayable, Publish, Attempt, Sized;
    if deaths != [] {
      StageDeathConverges(w, req, deaths[0]);
      AttemptKeepsSized(w, req, deaths[0]);
      StageDeathsConverge(Attempt(w, req, deaths[0]).0, req, deaths[1..]);
    }
  }

  /** Retrying a first publish that can succeed, for every point at which it can die: before the creation
      a retry always ends as one uninterrupted publish would; at each later stage it does so if and
      only if the displayed number compares right for the capacity; and inside mkfs if, besides, what
      mkfs left is blank or whole. */
  lemma RetryConvergesExactly(w: World, req: Request, d: Death)
    requires w.device.None? && req.linear && Publish(w, req, STAGES).1
    ensures d == AtStage(0) ==> Publish(Attempt(w, req, d).0, req, STAGES) == Publish(w, req, STAGES)
    ensures d.AtStage? && d.stop > 0 ==>
              (Publish(Attempt(w, req, d).0, req, STAGES) == Publish(w, req, STAGES) <==> Redisplayable(w.capacity))
    ensures d.InFormat? ==>
              (Converges(Attempt(w, req, d).0, w, req) <==>
               Redisplayable(w.capacity) && LeavesBlankOrWhole(w, req, d))
  {
    if Stop(d) > 0 {
      AfterFirstAttempt(w, req, Stop(d));
      var c := Attempt(w, req, d).0;
      assert c.device.Some? && Sized(c) && c.capacity == w.capacity;
      hide Publish, Redisplayable, CheckFSType, Attempt, LeavesBlankOrWhole;
      RepublishSucceedsExactly(c, req);
      if Redisplayable(w.capacity) {
        AttemptConvergesExactly(w, req, d);
        if d.AtStage? {
          StageDeathConverges(w, req, d);
        }
      }
    }
  }

  lemma StageDeathConverges(w: World, req: Request, d: Death)
    requires Sized(w) && Redisplayable(w.capacity) && d.AtStage?
    ensures Publish(Attempt(w, req, d).0, req, STAGES) == Publish(w, req, STAGES)
  {
    hide From;
    PublishRetryConverges(w, req, d.stop);
  }

  /** A pod that goes away and comes back finds the volume as it was. */
  lemma UnpublishThenPublish(w: World, req: Request)
    requires SettledBelow(STAGES, w) && Sized(w) && Redisplayable(w.capacity)
    ensures Publish(w.(mounted := false), req, STAGES) == (w, true)
  {
    var u := w.(mounted := false);
    assert Settled(0, w) && Settled(1, w) && Settled(2, w) && Settled(3, w) && Settled(5, w);
    assert SettledBelow(3, u);
    SettledStagesAreSkipped(u, req, 3);
    hide Sized, Redisplayable, From;
    OneStage(u, req, false, 3, STAGES);
    SettledStageDoesNothing(4, w, req, false);
    OneStage(w, req, false, 4, STAGES);
    OneStage(w, req, false, 5, STAGES);
    OneStage(w, req, false, 6, STAGES);
  }

  /** However far a collection got, collecting again reaches what one uninterrupted run would have,
      and a completed collection has nothing left to do. */
  lemma CollectRetryConverges(w: World, stop: nat)
    ensures Collect(Collect(w, stop).0, 2) == Collect(w, 2)
    ensures !Collectable(Collect(w, 2).0)
  {
    WithoutKeepsOrder([], w.finalizers, GC_TAG);
  }
}
