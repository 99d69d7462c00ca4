/** The extender's filter and its scores. */
module FilterScore {
  import opened Wrappers
  import opened Rounding
  import opened Scheduler
  import Reservation

  /** Per node the recorded free size and ledger. */
  type Records = map<string, (nat, set<string>)>

  ghost function FreeOf(view: View, records: Records, node: string): nat {
    if node in records then NodeFreeSize(view, records[node].0, records[node].1) else 0
  }

  predicate Admits(request: nat, free: nat) {
    request == 0 || free >= request
  }

  /** The nodes that fit, in the order given. */
  ghost function Fitting(view: View, pod: Pod, records: Records, nodes: seq<string>): seq<string> {
    if nodes == [] then []
    else
      var last := |nodes| - 1;
      Fitting(view, pod, records, nodes[..last]) +
      if Admits(RequestSize(view, pod), FreeOf(view, records, nodes[last])) then [nodes[last]] else []
  }

  /** Filtering distributes over the list and keeps exactly the nodes that fit. */
  lemma {:induction false} FittingIsTheSubsequence(view: View, pod: Pod, records: Records, a: seq<string>, b: seq<string>)
    ensures Fitting(view, pod, records, a + b) == Fitting(view, pod, records, a) + Fitting(view, pod, records, b)
    ensures forall n :: n in Fitting(view, pod, records, b)
                        <==> n in b && Admits(RequestSize(view, pod), FreeOf(view, records, n))
  {
    hide NodeFreeSize, RequestSize, FreeOf, Admits;
    if b == [] {
      assert a + b == a;
    } else {
      var last := |b| - 1;
      assert (a + b)[..|a + b| - 1] == a + b[..last];
      assert b == b[..last] + [b[last]];
      FittingIsTheSubsequence(view, pod, records, a, b[..last]);
    }
  }

  /** A node that fits stays as often as it was given, and no other node appears; a list of one is
      kept or dropped as a whole. */
  lemma {:induction false} FittingKeepsOccurrences(view: View, pod: Pod, records: Records, nodes: seq<string>, n: string)
    ensures Fitting(view, pod, records, [n])
            == if Admits(RequestSize(view, pod), FreeOf(view, records, n)) then [n] else []
    ensures multiset(Fitting(view, pod, records, nodes))[n]
            == if Admits(RequestSize(view, pod), FreeOf(view, records, n)) then multiset(nodes)[n] else 0
  {
    hide NodeFreeSize, RequestSize, FreeOf, Admits;
    if nodes != [] {
      var last := |nodes| - 1;
      assert nodes == nodes[..last] + [nodes[last]];
      FittingKeepsOccurrences(view, pod, records, nodes[..last], n);
    }
  }

  /** On a node with a record, the filter is the one the capacity runs are about: it takes the
      reservations in the record into account. A node without a record takes only pods that ask for nothing. */
  lemma FilterSeesTheRecord(s: Reservation.State, pod: Pod, records: Records, nodes: seq<string>, n: string)
    ensures n in records && records[n] == (s.status.freeSize, s.status.preAllocated) ==>
              (n in Fitting(s.view, pod, records, nodes) <==> n in nodes && Reservation.Fits(s, pod))
    ensures n !in records ==>
              (n in Fitting(s.view, pod, records, nodes) <==> n in nodes && RequestSize(s.view, pod) == 0)
  {
    hide NodeFreeSize, RequestSize, Fitting;
    FittingIsTheSubsequence(s.view, pod, records, [], nodes);
  }

  /** A positive score on a node with a safe record is a pod that has room beside the reservations. */
  lemma PositiveScoreHasRoom(s: Reservation.State, pod: Pod, records: Records, n: string, score: int)
    requires Reservation.Inv(s) && n in records && records[n] == (s.status.freeSize, s.status.preAllocated)
    requires |pod.volumes| < 0x8000_0000 && score > 0
    requires MayScore(RequestSize(s.view, pod), FreeOf(s.view, records, n), score)
    ensures Reservation.Room(s, pod)
    ensures RequestSize(s.view, pod) > 0 ==>
              RequestSize(s.view, pod) + Reserved(s.view, s.status.preAllocated) < s.status.freeSize
  {
    Reservation.InvIsSafe(s);
    hide Reservation.Linked, Reservation.Covered, Reservation.Overcommitted, Reservation.Room, RequestSize, Reserved, SizeScore;
    assert ValidView(s.view) by { Reservation.InvHasView(s); }
    Reservation.ScheduleReserves(s, pod);
  }

  method NodeFree(view: View, records: Records, node: string) returns (free: nat)
    requires ValidView(view)
    ensures free == FreeOf(view, records, node)
  {
    free := GetNodeFreeSize(view, if node in records then Some(records[node]) else None);
  }

  /** Returns nothing when it panics, which takes a node to look at. */
  method PredicateHandler(view: View, pod: Pod, records: Records, nodes: seq<string>)
    returns (result: Option<seq<string>>)
    requires ValidView(view)
    ensures result.None? <==> nodes != [] && Panics(view, pod)
    ensures result.Some? ==> result.value == Fitting(view, pod, records, nodes)
  {
    hide NodeFreeSize, RequestSize, Panics;
    var canSchedule := [];
    for i := 0 to |nodes|
      invariant canSchedule == Fitting(view, pod, records, nodes[..i])
      invariant i > 0 ==> !Panics(view, pod)
    {
      assert nodes[..i + 1][..i] == nodes[..i];
      var requestSize := GetPodLocalVolumeRequestSize(view, pod);
      if requestSize.None? {
        return None;
      }
      var lvFreeSize := NodeFree(view, records, nodes[i]);
      if requestSize.value == 0 || lvFreeSize >= requestSize.value {
        canSchedule := canSchedule + [nodes[i]];
      }
    }
    assert nodes[..|nodes|] == nodes;
    return Some(canSchedule);
  }

  datatype HostPriority = HostPriority(host: string, score: int)

  /** The remainder of Go's int64 `%`, which takes the sign of the dividend. */
  function Remainder(x: int, d: nat): int
    requires d > 0
  {
    if x >= 0 then x % d else -((-x) % d)
  }

  /** The conversion of a uint64 to int64. */
  function ToInt64(x: nat): int {
    if x < TWO63 then x else x - TWO64
  }

  function SizeScore(size: int): int {
    if Remainder(size, 10) == 0 then 10 else Remainder(size, 10)
  }

  method RandInt64Range(min: int, max: int) returns (r: int)
    ensures min >= max || min == 0 || max == 0 ==> r == max
    ensures !(min >= max || min == 0 || max == 0) ==> min <= r < max
  {
    if min >= max || min == 0 || max == 0 {
      return max;
    }
    r :| min <= r < max;
  }

  /** The scores a node may get; two cases draw at random. */
  predicate MayScore(request: nat, free: nat, score: int) {
    if request == 0 && free == 0 then 1 <= score < 10
    else if request == 0 then 1 <= score < 5
    else if free > request then score == SizeScore(ToInt64(free))
    else score == 0
  }

  method Prioritize(view: View, pod: Pod, records: Records, nodes: seq<string>)
    returns (result: Option<seq<HostPriority>>)
    requires ValidView(view)
    ensures result.None? <==> Panics(view, pod)
    ensures result.Some? ==> |result.value| == |nodes|
    ensures result.Some? ==>
              forall i | 0 <= i < |nodes| ::
                && result.value[i].host == nodes[i]
                && MayScore(RequestSize(view, pod), FreeOf(view, records, nodes[i]), result.value[i].score)
  {
    hide NodeFreeSize, RequestSize, SizeScore, Panics;
    var request := GetPodLocalVolumeRequestSize(view, pod);
    if request.None? {
      return None;
    }
    var requestSize := request.value;
    var list := seq(|nodes|, _ => HostPriority("", 0));
    for i := 0 to |nodes|
      invariant |list| == |nodes|
      invariant forall j | 0 <= j < i ::
                  && list[j].host == nodes[j]
                  && MayScore(requestSize, FreeOf(view, records, nodes[j]), list[j].score)
    {
      var freeSize := NodeFree(view, records, nodes[i]);
      var score := 0;
      if requestSize == 0 && freeSize == 0 {
        score := RandInt64Range(1, 10);
      } else if requestSize == 0 && freeSize > 0 {
        score := RandInt64Range(1, 5);
      } else if freeSize > requestSize {
        score := SizeScore(ToInt64(freeSize));
      }
      list := list[i := HostPriority(nodes[i], score)];
    }
    return Some(list);
  }

  /** Every positive score passes the filter; the only admitted node scored zero is an exact fit of a
      non-zero request; and a score leaves 0..10 exactly when a free size beyond int64 was converted. */
  lemma FilterAndScoreAgree(request: nat, free: nat, score: int)
    requires MayScore(request, free, score) && free < TWO64
    ensures score > 0 ==> Admits(request, free)
    ensures Admits(request, free) && score == 0 <==> request > 0 && free == request
    ensures request == 0 ==> 1 <= score < if free == 0 then 10 else 5
    ensures request > 0 && request < free < TWO63 ==> 1 <= score <= 10 && (free - score) % 10 == 0
    ensures 0 <= score <= 10 <==>
            free < TWO63 || request == 0 || free <= request || (TWO64 - free) % 10 == 0
  {
  }
}
