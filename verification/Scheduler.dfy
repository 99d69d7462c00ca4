/** The scheduler extender's accounting: what a pod asks for and what a node has left. */
module Scheduler {
  import opened Wrappers
  import opened Keys
  import opened Rounding
  import opened Sums

  const DRIVER_NAME := "local.volume.csi.kubernetes.io"

  /** A claim: its storage class and its storage request in bytes, when present. */
  datatype Claim = Claim(storageClass: Option<string>, request: Option<nat>)

  /** What the claim and storage class listers return: claims by namespace and name,
      provisioners by class name. */
  datatype View = View(claims: map<(string, string), Claim>, classes: map<string, string>)

  /** A pod: its namespace and, per volume, the claim it names, if any. */
  datatype Pod = Pod(namespace: string, volumes: seq<Option<string>>)

  /** Names are Kubernetes names, which hold no slash and are not empty; sizes are int64. */
  ghost predicate ValidView(view: View) {
    && (forall c | c in view.claims :: SLASH !in c.0 && SLASH !in c.1 && c.1 != "")
    && (forall c | c in view.claims && view.claims[c].request.Some? :: view.claims[c].request.value < TWO63)
  }

  predicate IsDriverClaim(view: View, namespace: string, name: string) {
    && (namespace, name) in view.claims
    && var className := view.claims[(namespace, name)].storageClass;
    && className.Some? && className.value in view.classes
    && view.classes[className.value] == DRIVER_NAME
  }

  /** The volume names a claim without a storage class, which the scheduler dereferences. */
  predicate NamesNoClass(view: View, namespace: string, volume: Option<string>) {
    volume.Some? && (namespace, volume.value) in view.claims
    && view.claims[(namespace, volume.value)].storageClass.None?
  }

  /** Some volume of the pod makes the scheduler panic. */
  predicate Panics(view: View, pod: Pod) {
    exists i | 0 <= i < |pod.volumes| :: NamesNoClass(view, pod.namespace, pod.volumes[i])
  }

  function ClaimSize(c: Claim): nat {
    if c.request.Some? then SizeInGiB(c.request.value) else 0
  }

  // ------------------------------------------------------------- the request

  /** What one volume adds to its pod's request. */
  function VolumeSize(view: View, namespace: string, volume: Option<string>): nat {
    if volume.Some? && IsDriverClaim(view, namespace, volume.value)
    then ClaimSize(view.claims[(namespace, volume.value)])
    else 0
  }

  /** The request over a list of volumes, without the wrap-around of uint64. */
  function RequestSum(view: View, namespace: string, volumes: seq<Option<string>>): nat {
    if volumes == [] then 0
    else
      var last := |volumes| - 1;
      RequestSum(view, namespace, volumes[..last]) + VolumeSize(view, namespace, volumes[last])
  }

  function RequestSize(view: View, pod: Pod): nat {
    RequestSum(view, pod.namespace, pod.volumes) % TWO64
  }

  lemma AddModulo(a: nat, b: nat)
    ensures (a % TWO64 + b) % TWO64 == (a + b) % TWO64
  {
  }

  /** Returns nothing when it panics. */
  method GetPodLocalVolumeRequestSize(view: View, pod: Pod) returns (size: Option<nat>)
    requires ValidView(view)
    ensures size.None? <==> Panics(view, pod)
    ensures size.Some? ==> size.value == RequestSize(view, pod)
  {
    hide SizeInGiB, RealSize;
    var result := 0;
    for i := 0 to |pod.volumes|
      invariant forall j | 0 <= j < i :: !NamesNoClass(view, pod.namespace, pod.volumes[j])
      invariant result == RequestSum(view, pod.namespace, pod.volumes[..i]) % TWO64
    {
      assert pod.volumes[..i + 1][..i] == pod.volumes[..i];
      var volume := pod.volumes[i];
      if volume.Some? {
        var key := (pod.namespace, volume.value);
        if key in view.claims {
          var claim := view.claims[key];
          if claim.storageClass.None? {
            return None;
          }
          if claim.storageClass.value in view.classes {
            if view.classes[claim.storageClass.value] == DRIVER_NAME && claim.request.Some? {
              RealSizeClosedForm(claim.request.value);
              AddModulo(RequestSum(view, pod.namespace, pod.volumes[..i]), SizeInGiB(claim.request.value));
              result := (result + RealSize(claim.request.value)) % TWO64;
            }
          }
        }
      }
    }
    assert pod.volumes[..|pod.volumes|] == pod.volumes;
    return Some(result);
  }

  // ---------------------------------------------------------- the claim keys

  /** The keys of the driver's claims that a list of volumes names. */
  function DriverKeys(view: View, namespace: string, volumes: seq<Option<string>>): set<string> {
    if volumes == [] then {}
    else
      var last := |volumes| - 1;
      var volume := volumes[last];
      var keys := DriverKeys(view, namespace, volumes[..last]);
      if volume.Some? && IsDriverClaim(view, namespace, volume.value)
      then keys + {MakePVCKey(namespace, volume.value)}
      else keys
  }

  function PodKeys(view: View, pod: Pod): set<string> {
    DriverKeys(view, pod.namespace, pod.volumes)
  }

  /** The claim names come as the keys of a map, and every value in it is empty. */
  method GetPodLocalVolumePVCNames(view: View, pod: Pod) returns (names: Option<map<string, string>>)
    ensures names.None? <==> Panics(view, pod)
    ensures names.Some? ==> names.value.Keys == PodKeys(view, pod)
    ensures names.Some? ==> forall k | k in names.value :: names.value[k] == ""
  {
    var result: map<string, string> := map[];
    for i := 0 to |pod.volumes|
      invariant forall j | 0 <= j < i :: !NamesNoClass(view, pod.namespace, pod.volumes[j])
      invariant result.Keys == DriverKeys(view, pod.namespace, pod.volumes[..i])
      invariant forall k | k in result :: result[k] == ""
    {
      assert pod.volumes[..i + 1][..i] == pod.volumes[..i];
      var volume := pod.volumes[i];
      if volume.Some? {
        var key := (pod.namespace, volume.value);
        if key in view.claims {
          var className := view.claims[key].storageClass;
          if className.None? {
            return None;
          }
          if className.value in view.classes && view.classes[className.value] == DRIVER_NAME {
            result := result[MakePVCKey(pod.namespace, volume.value) := ""];
          }
        }
      }
    }
    assert pod.volumes[..|pod.volumes|] == pod.volumes;
    return Some(result);
  }

  // ----------------------------------------------------------- the free size

  /** What one ledger key takes: the size of the claim it names, or nothing. */
  function KeySize(view: View, key: string): nat {
    var claim := SplitPVCKey(key);
    if claim in view.claims then ClaimSize(view.claims[claim]) else 0
  }

  ghost function Sizes(view: View, ledger: set<string>): map<string, nat> {
    map k | k in ledger :: KeySize(view, k)
  }

  /** The reserved sizes, in GiB. */
  ghost function Reserved(view: View, ledger: set<string>): nat {
    SumMap(Sizes(view, ledger))
  }

  /** What the scheduler takes a node's free size to be: a uint64 subtraction. */
  ghost function NodeFreeSize(view: View, freeSize: nat, ledger: set<string>): nat {
    (freeSize - Reserved(view, ledger)) % TWO64
  }

  lemma ReservedInsert(view: View, ledger: set<string>, key: string)
    ensures Reserved(view, ledger + {key})
            == Reserved(view, ledger) + if key in ledger then 0 else KeySize(view, key)
  {
    if key in ledger {
      assert ledger + {key} == ledger;
    } else {
      SumInsert(Sizes(view, ledger), key, KeySize(view, key));
      assert Sizes(view, ledger + {key}) == Sizes(view, ledger)[key := KeySize(view, key)];
    }
  }

  lemma ReservedSplit(view: View, ledger: set<string>, part: set<string>)
    ensures Reserved(view, ledger) == Reserved(view, ledger * part) + Reserved(view, ledger - part)
  {
    var m := Sizes(view, ledger);
    SumSplit(m, part);
    assert Sizes(view, ledger * part) == map k | k in m && k in part :: m[k];
    assert Sizes(view, ledger - part) == m - part;
  }

  method GetNodeFreeSize(view: View, node: Option<(nat, set<string>)>) returns (free: nat)
    requires ValidView(view)
    ensures node.None? ==> free == 0
    ensures node.Some? ==> free == NodeFreeSize(view, node.value.0, node.value.1)
  {
    hide SizeInGiB, RealSize, SplitPVCKey;
    if node.None? {
      return 0;
    }
    var (freeSize, ledger) := node.value;
    var preallocated := 0;
    var rest := ledger;
    while rest != {}
      invariant rest <= ledger
      invariant preallocated == Reserved(view, ledger - rest) % TWO64
    {
      var key :| key in rest;
      ReservedInsert(view, ledger - rest, key);
      assert ledger - (rest - {key}) == ledger - rest + {key};
      rest := rest - {key};
      var claim := SplitPVCKey(key);
      if claim in view.claims && view.claims[claim].request.Some? {
        RealSizeClosedForm(view.claims[claim].request.value);
        AddModulo(Reserved(view, ledger - rest - {key}), SizeInGiB(view.claims[claim].request.value));
        preallocated := (preallocated + RealSize(view.claims[claim].request.value)) % TWO64;
      }
    }
    assert ledger - rest == ledger;
    free := (freeSize - preallocated) % TWO64;
  }

  /** Claims that are missing, or whose class is missing or another provisioner's, count for nothing: a pod
      has the same request and the same keys without the volumes that name them. */
  lemma {:induction false} OtherClaimsCountNothing(view: View, namespace: string, before: seq<Option<string>>,
                                                   volume: Option<string>, after: seq<Option<string>>)
    requires volume.Some? && (namespace, volume.value) in view.claims ==>
               var className := view.claims[(namespace, volume.value)].storageClass;
               className.None? || className.value !in view.classes || view.classes[className.value] != DRIVER_NAME
    ensures RequestSum(view, namespace, before + [volume] + after) == RequestSum(view, namespace, before + after)
    ensures DriverKeys(view, namespace, before + [volume] + after) == DriverKeys(view, namespace, before + after)
    decreases |after|
  {
    var all, without := before + [volume] + after, before + after;
    if after == [] {
      assert all[..|all| - 1] == before && without == before;
    } else {
      var rest := after[..|after| - 1];
      assert all[..|all| - 1] == before + [volume] + rest && without[..|without| - 1] == before + rest;
      OtherClaimsCountNothing(view, namespace, before, volume, rest);
    }
  }

  /** A claim of this driver counts with its size and its key. */
  lemma DriverClaimCounts(view: View, namespace: string, volumes: seq<Option<string>>, name: string, className: string)
    requires (namespace, name) in view.claims && view.claims[(namespace, name)].storageClass == Some(className)
    requires className in view.classes && view.classes[className] == DRIVER_NAME
    ensures RequestSum(view, namespace, volumes + [Some(name)])
            == RequestSum(view, namespace, volumes)
               + match view.claims[(namespace, name)].request { case None => 0 case Some(bytes) => SizeInGiB(bytes) }
    ensures DriverKeys(view, namespace, volumes + [Some(name)])
            == DriverKeys(view, namespace, volumes) + {MakePVCKey(namespace, name)}
  {
    hide SizeInGiB;
    assert (volumes + [Some(name)])[..|volumes|] == volumes;
  }

  // ------------------------------------------- the request covers the ledger

  /** Every claim of positive size is named by one volume only and is not reserved yet. */
  ghost predicate NamedOnceAndNew(view: View, namespace: string, volumes: seq<Option<string>>, ledger: set<string>) {
    && (forall i | 0 <= i < |volumes| && VolumeSize(view, namespace, volumes[i]) > 0 ::
          MakePVCKey(namespace, volumes[i].value) !in ledger)
    && (forall i, j | 0 <= i < j < |volumes| && VolumeSize(view, namespace, volumes[i]) > 0 ::
          volumes[i] != volumes[j])
  }

  lemma {:induction false} DriverKeysMembers(view: View, namespace: string, volumes: seq<Option<string>>, key: string)
    ensures key in DriverKeys(view, namespace, volumes) <==>
            exists i :: 0 <= i < |volumes| && volumes[i].Some?
                        && IsDriverClaim(view, namespace, volumes[i].value)
                        && key == MakePVCKey(namespace, volumes[i].value)
  {
    if volumes != [] {
      var last := |volumes| - 1;
      DriverKeysMembers(view, namespace, volumes[..last], key);
      assert forall i | 0 <= i < last :: volumes[..last][i] == volumes[i];
    }
  }

  /** Reserving a pod's claims lowers the free size by at most the pod's request, and by
      exactly the request if and only if the claims are named once and are new. */
  lemma {:induction false} RequestCoversReservation(view: View, namespace: string, volumes: seq<Option<string>>,
                                                    ledger: set<string>)
    requires ValidView(view)
    ensures Reserved(view, ledger + DriverKeys(view, namespace, volumes))
            <= Reserved(view, ledger) + RequestSum(view, namespace, volumes)
    ensures Reserved(view, ledger + DriverKeys(view, namespace, volumes))
            == Reserved(view, ledger) + RequestSum(view, namespace, volumes)
            <==> NamedOnceAndNew(view, namespace, volumes, ledger)
  {
    hide SizeInGiB, SplitPVCKey, MakePVCKey;
    if volumes == [] {
      assert ledger + {} == ledger;
    } else {
      var last := |volumes| - 1;
      var before, volume := volumes[..last], volumes[last];
      RequestCoversReservation(view, namespace, before, ledger);
      var keys := DriverKeys(view, namespace, before);
      if volume.Some? && IsDriverClaim(view, namespace, volume.value) {
        var key := MakePVCKey(namespace, volume.value);
        SplitInvertsMake(namespace, volume.value);
        assert KeySize(view, key) == VolumeSize(view, namespace, volume);
        ReservedInsert(view, ledger + keys, key);
        assert ledger + (keys + {key}) == ledger + keys + {key};
        DriverKeysMembers(view, namespace, before, key);
        NamedOnceStep(view, namespace, volumes, ledger);
      } else {
        assert NamedOnceAndNew(view, namespace, volumes, ledger) ==> NamedOnceAndNew(view, namespace, before, ledger);
        assert NamedOnceAndNew(view, namespace, before, ledger) ==> NamedOnceAndNew(view, namespace, volumes, ledger);
      }
    }
  }

  lemma NamedOnceStep(view: View, namespace: string, volumes: seq<Option<string>>, ledger: set<string>)
    requires volumes != [] && volumes[|volumes| - 1].Some?
    requires IsDriverClaim(view, namespace, volumes[|volumes| - 1].value)
    ensures var before, volume := volumes[..|volumes| - 1], volumes[|volumes| - 1];
            var key := MakePVCKey(namespace, volume.value);
            NamedOnceAndNew(view, namespace, volumes, ledger) <==>
            NamedOnceAndNew(view, namespace, before, ledger) &&
            (VolumeSize(view, namespace, volume) == 0 || key !in ledger + DriverKeys(view, namespace, before))
  {
    var last := |volumes| - 1;
    var before, volume := volumes[..last], volumes[last];
    var key := MakePVCKey(namespace, volume.value);
    DriverKeysMembers(view, namespace, before, key);
    forall name ensures MakePVCKey(namespace, name) == key ==> name == volume.value {
      assert MakePVCKey(namespace, name)[|namespace| + 1..] == name;
      assert key[|namespace| + 1..] == volume.value;
    }
    assert forall i | 0 <= i < last :: before[i] == volumes[i];
  }

  /** A pod with fewer than 2^31 volumes cannot wrap its request around. */
  lemma {:induction false} RequestDoesNotWrap(view: View, namespace: string, volumes: seq<Option<string>>)
    requires ValidView(view)
    ensures RequestSum(view, namespace, volumes) <= |volumes| * 0x2_0000_0000
  {
    if volumes != [] {
      RequestDoesNotWrap(view, namespace, volumes[..|volumes| - 1]);
    }
  }
}
