/** The per-node LocalVolume record: the API server that keeps it, the scheduler's bind that
    adds reservations to it and the agent's reconcile that refreshes and prunes it. */
module LocalVolumes {
  import opened Wrappers
  import opened Keys
  import opened Scheduler
  import opened Volumes

  const NAMESPACE_DEFAULT := "default"

  /** Sizes in GiB. The ledger is the key set of `PreAllocated`, whose values nobody reads. */
  datatype Status = Status(totalSize: nat, freeSize: nat, preAllocated: set<string>)

  datatype Record = Record(version: nat, status: Status)

  /** The volume group's size and free space, in whole MiB. */
  datatype VGInfo = VGInfo(vgSize: nat, vgFree: nat)

  type ObjectKey = (string, string)

  /** The keys a bind inserts: the claim keys its readers expect, or, as the loop over the map
      of claim names is written, the values of that map. */
  datatype BindMode = ClaimKeys | MapValues

  function BindKeys(mode: BindMode, view: View, pod: Pod): set<string> {
    match mode
    case ClaimKeys => PodKeys(view, pod)
    case MapValues => if PodKeys(view, pod) == {} then {} else {""}
  }

  function WithKeys(s: Status, keys: set<string>): Status {
    s.(preAllocated := s.preAllocated + keys)
  }

  /** The status the agent computes from the group and the claims it sees bound. */
  function Refreshed(s: Status, vg: VGInfo, bound: set<string>): Status {
    Status(vg.vgSize / 1024, vg.vgFree / 1024, s.preAllocated - bound)
  }

  /** A second reconcile in the same environment computes no change, so the update that the
      first one triggers ends the loop; and the ledger is the old one minus the bound claims. */
  lemma AgentFixpoint(s: Status, vg: VGInfo, bound: set<string>)
    ensures Refreshed(Refreshed(s, vg, bound), vg, bound) == Refreshed(s, vg, bound)
    ensures Refreshed(s, vg, bound) == s <==>
            s.totalSize == vg.vgSize / 1024 && s.freeSize == vg.vgFree / 1024 && s.preAllocated !! bound
  {
    assert s.preAllocated - bound - bound == s.preAllocated - bound;
    if s.preAllocated !! bound {
      assert s.preAllocated - bound == s.preAllocated;
    } else {
      var k :| k in s.preAllocated && k in bound;
      assert k !in s.preAllocated - bound;
    }
  }

  /** The stored objects; a status write is accepted only on the version it was read at. */
  class ApiServer {
    var stored: map<ObjectKey, Record>
    var podNode: map<ObjectKey, string>

    constructor ()
      ensures stored == map[] && podNode == map[]
    {
      stored, podNode := map[], map[];
    }

    predicate Current(key: ObjectKey, copy: Record)
      reads this
    {
      key in stored && stored[key].version == copy.version
    }

    method UpdateStatus(key: ObjectKey, copy: Record) returns (ok: bool)
      modifies this
      ensures ok == old(Current(key, copy))
      ensures podNode == old(podNode)
      ensures stored == if ok then old(stored)[key := Record(copy.version + 1, copy.status)] else old(stored)
    {
      ok := Current(key, copy);
      if ok {
        stored := stored[key := Record(copy.version + 1, copy.status)];
      }
    }

    /** A starting agent registers its node once, with an empty status; it goes on if that fails. */
    method Register(node: string, getAnswers: bool, createSucceeds: bool)
      modifies this
      ensures podNode == old(podNode)
      ensures stored == if (NAMESPACE_DEFAULT, node) in old(stored) || !getAnswers || !createSucceeds then old(stored)
                        else old(stored)[(NAMESPACE_DEFAULT, node) := Record(1, Status(0, 0, {}))]
    {
      if getAnswers && (NAMESPACE_DEFAULT, node) !in stored && createSucceeds {
        stored := stored[(NAMESPACE_DEFAULT, node) := Record(1, Status(0, 0, {}))];
      }
    }
  }

  /** Reads the cached record, adds the keys to a copy and writes the copy back. A panic is an error. */
  method Bind(api: ApiServer, view: View, pods: map<ObjectKey, Pod>, cache: map<ObjectKey, Record>,
              podKey: ObjectKey, node: string, mode: BindMode)
    returns (result: Result<()>)
    modifies api
    ensures api.podNode == old(api.podNode)
    ensures result.Ok? <==> podKey in pods && !Panics(view, pods[podKey]) && (NAMESPACE_DEFAULT, node) in cache
                            && old(api.Current((NAMESPACE_DEFAULT, node), cache[(NAMESPACE_DEFAULT, node)]))
    ensures result.Err? ==> api.stored == old(api.stored)
    ensures result.Ok? ==>
              var key := (NAMESPACE_DEFAULT, node);
              api.stored == old(api.stored)[key := Record(cache[key].version + 1,
                              WithKeys(cache[key].status, BindKeys(mode, view, pods[podKey])))]
  {
    if podKey !in pods {
      return Err("pod not found");
    }
    var found := GetPodLocalVolumePVCNames(view, pods[podKey]);
    if found.None? {
      return Err("no storage class");
    }
    var names := found.value;
    var key := (NAMESPACE_DEFAULT, node);
    if key !in cache {
      return Err("local volume not found");
    }
    var ledger := cache[key].status.preAllocated;
    var rest := names.Keys;
    while rest != {}
      invariant rest <= names.Keys
      invariant ledger == cache[key].status.preAllocated +
                          match mode
                          case ClaimKeys => names.Keys - rest
                          case MapValues => if rest == names.Keys then {} else {""}
    {
      var name :| name in rest;
      ledger := ledger + match mode case ClaimKeys => {name} case MapValues => {names[name]};
      assert names.Keys - (rest - {name}) == names.Keys - rest + {name};
      assert rest - {name} != names.Keys;
      rest := rest - {name};
    }
    assert ledger == cache[key].status.preAllocated + BindKeys(mode, view, pods[podKey]);
    var copy := cache[key].(status := cache[key].status.(preAllocated := ledger));
    var ok := api.UpdateStatus(key, copy);
    return if ok then Ok(()) else Err("conflict");
  }

  /** The extender's bind call: reservations first, then the pod. When binding the pod fails,
      the reservations stay. */
  method BindHandler(api: ApiServer, view: View, pods: map<ObjectKey, Pod>, cache: map<ObjectKey, Record>,
                     podKey: ObjectKey, node: string, mode: BindMode, podBindSucceeds: bool)
    returns (result: Result<()>)
    modifies api
    ensures var key := (NAMESPACE_DEFAULT, node);
            var reserves := podKey in pods && !Panics(view, pods[podKey]) && key in cache && old(api.Current(key, cache[key]));
            && (result.Ok? <==> reserves && podBindSucceeds)
            && api.stored == (if reserves
                              then old(api.stored)[key := Record(cache[key].version + 1,
                                     WithKeys(cache[key].status, BindKeys(mode, view, pods[podKey])))]
                              else old(api.stored))
            && api.podNode == if result.Ok? then old(api.podNode)[podKey := node] else old(api.podNode)
  {
    var reserved := Bind(api, view, pods, cache, podKey, node, mode);
    if reserved.Err? {
      return reserved;
    }
    if !podBindSucceeds {
      return Err("pod not bound");
    }
    api.podNode := api.podNode[podKey := node];
    return Ok(());
  }

  /** The namespace and name of a queue key, or nothing when it has more than one slash. */
  function SplitMetaNamespaceKey(key: string): Option<ObjectKey> {
    var parts := Split(key, SLASH);
    if |parts| == 1 then Some(("", parts[0]))
    else if |parts| == 2 then Some((parts[0], parts[1]))
    else None
  }

  /** The record a reconcile of `key` works on: this node's cached copy, when the group is readable. */
  predicate Concerns(node: string, key: string, cache: map<ObjectKey, Record>, vg: Option<VGInfo>) {
    && SplitMetaNamespaceKey(key).Some?
    && SplitMetaNamespaceKey(key).value.1 == node
    && SplitMetaNamespaceKey(key).value in cache
    && vg.Some?
  }

  /** The agent's reconcile. It writes only a change, only on the version it read, and leaves
      every other node's key alone. */
  method Reconcile(api: ApiServer, node: string, key: string, cache: map<ObjectKey, Record>,
                   volumes: Option<seq<Volume>>, vg: Option<VGInfo>)
    returns (result: Result<()>)
    modifies api
    ensures api.podNode == old(api.podNode)
    ensures !Concerns(node, key, cache, vg) ==> result.Ok? && api.stored == old(api.stored)
    ensures Concerns(node, key, cache, vg) ==>
              var target := SplitMetaNamespaceKey(key).value;
              var copy := cache[target];
              var bound := if volumes.Some? then BoundKeys(volumes.value, node) else {};
              var next := Refreshed(copy.status, vg.value, bound);
              && (result.Ok? <==> next == copy.status || old(api.Current(target, copy)))
              && api.stored == if next != copy.status && old(api.Current(target, copy))
                               then old(api.stored)[target := Record(copy.version + 1, next)]
                               else old(api.stored)
  {
    var split := SplitMetaNamespaceKey(key);
    if split.None? || split.value.1 != node || split.value !in cache {
      return Ok(());
    }
    var lv := cache[split.value];
    if vg.None? {
      return Ok(());
    }
    var status, changed := lv.status, false;
    if vg.value.vgSize / 1024 != status.totalSize {
      status, changed := status.(totalSize := vg.value.vgSize / 1024), true;
    }
    if vg.value.vgFree / 1024 != status.freeSize {
      status, changed := status.(freeSize := vg.value.vgFree / 1024), true;
    }
    var myNodePVCs := GetMyNodeBoundedPVCList(volumes, node);
    var bound, ledger := myNodePVCs.Keys, lv.status.preAllocated;
    var rest := bound;
    while rest != {}
      invariant rest <= bound
      invariant status.preAllocated == ledger - (bound - rest)
      invariant status.totalSize == vg.value.vgSize / 1024 && status.freeSize == vg.value.vgFree / 1024
      invariant changed <==> status != lv.status
    {
      var k :| k in rest;
      if k in status.preAllocated {
        status := status.(preAllocated := status.preAllocated - {k});
        assert k in ledger && k !in status.preAllocated;
        changed := true;
      }
      rest := rest - {k};
    }
    assert bound - rest == bound;
    if changed {
      var ok := api.UpdateStatus(split.value, Record(lv.version, status));
      return if ok then Ok(()) else Err("conflict");
    }
    return Ok(());
  }
}
