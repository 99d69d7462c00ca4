/** Which node keys a volume event puts on the agent's queue. */
module Routing {
  import opened Wrappers
  import opened Keys
  import opened Volumes
  import opened LocalVolumes
  import Queues
  import WorkQueue

  function NodeKey(node: string): Queues.Key {
    Queues.Key(NAMESPACE_DEFAULT, node)
  }

  /** The node names the expressions list under the topology key, in order. */
  function ExpressionNodes(expressions: seq<Expression>): seq<string> {
    if expressions == [] then []
    else
      var last := |expressions| - 1;
      ExpressionNodes(expressions[..last]) +
      if expressions[last].key == TOPOLOGY_NODE_KEY then expressions[last].values else []
  }

  function TermNodes(terms: seq<Term>): seq<string> {
    if terms == [] then []
    else
      var last := |terms| - 1;
      TermNodes(terms[..last]) + ExpressionNodes(terms[last].expressions)
  }

  function VolumeNodes(pv: Volume): seq<string> {
    if pv.affinity.Some? && pv.affinity.value.required.Some?
    then TermNodes(pv.affinity.value.required.value)
    else []
  }

  /** Adds the key of every node in turn. */
  function AddAll(q: Queues.Queue, nodes: seq<string>): Queues.Queue {
    if nodes == [] then q
    else Queues.Add(AddAll(q, nodes[..|nodes| - 1]), NodeKey(nodes[|nodes| - 1]))
  }

  lemma {:induction false} AddAllConcat(q: Queues.Queue, a: seq<string>, b: seq<string>)
    ensures AddAll(q, a + b) == AddAll(AddAll(q, a), b)
  {
    if b == [] {
      assert a + b == a;
    } else {
      var last := |b| - 1;
      assert (a + b)[..|a + b| - 1] == a + b[..last];
      AddAllConcat(q, a, b[..last]);
    }
  }

  method EnqueueValues(q: WorkQueue.SharedQueue, values: seq<string>)
    modifies q
    ensures q.Model() == AddAll(old(q.Model()), values)
  {
    for i := 0 to |values|
      invariant q.Model() == AddAll(old(q.Model()), values[..i])
    {
      q.Add(NodeKey(values[i]));
      assert values[..i + 1][..i] == values[..i];
    }
    assert values[..|values|] == values;
  }

  method EnqueueExpressions(q: WorkQueue.SharedQueue, expressions: seq<Expression>)
    modifies q
    ensures q.Model() == AddAll(old(q.Model()), ExpressionNodes(expressions))
  {
    for i := 0 to |expressions|
      invariant q.Model() == AddAll(old(q.Model()), ExpressionNodes(expressions[..i]))
    {
      assert expressions[..i + 1][..i] == expressions[..i];
      if expressions[i].key == TOPOLOGY_NODE_KEY {
        EnqueueValues(q, expressions[i].values);
        AddAllConcat(old(q.Model()), ExpressionNodes(expressions[..i]), expressions[i].values);
      } else {
        assert ExpressionNodes(expressions[..i + 1]) == ExpressionNodes(expressions[..i]);
      }
    }
    assert expressions[..|expressions|] == expressions;
  }

  /** The event handler for volumes. */
  method EnqueueLocalVolumePV(q: WorkQueue.SharedQueue, pv: Volume)
    modifies q
    ensures q.Model() == AddAll(old(q.Model()), VolumeNodes(pv))
  {
    if pv.affinity.None? || pv.affinity.value.required.None? {
      return;
    }
    var terms := pv.affinity.value.required.value;
    for i := 0 to |terms|
      invariant q.Model() == AddAll(old(q.Model()), TermNodes(terms[..i]))
    {
      assert terms[..i + 1][..i] == terms[..i];
      EnqueueExpressions(q, terms[i].expressions);
      AddAllConcat(old(q.Model()), TermNodes(terms[..i]), ExpressionNodes(terms[i].expressions));
    }
    assert terms[..|terms|] == terms;
  }

  lemma {:induction false} ExpressionsSplit(a: seq<Expression>, last: Expression, node: string)
    ensures ExpressionsName(a + [last], node) <==>
            ExpressionsName(a, node) || (last.key == TOPOLOGY_NODE_KEY && node in last.values)
  {
    if a == [] {
      assert (a + [last])[1..] == [];
    } else {
      assert (a + [last])[1..] == a[1..] + [last];
      ExpressionsSplit(a[1..], last, node);
    }
  }

  lemma {:induction false} ExpressionsAgree(expressions: seq<Expression>, node: string)
    ensures node in ExpressionNodes(expressions) <==> ExpressionsName(expressions, node)
  {
    if expressions != [] {
      var last := |expressions| - 1;
      ExpressionsAgree(expressions[..last], node);
      assert expressions == expressions[..last] + [expressions[last]];
      ExpressionsSplit(expressions[..last], expressions[last], node);
    }
  }

  lemma {:induction false} TermsSplit(a: seq<Term>, last: Term, node: string)
    ensures TermsName(a + [last], node) <==> TermsName(a, node) || ExpressionsName(last.expressions, node)
  {
    if a == [] {
      assert (a + [last])[1..] == [];
    } else {
      assert (a + [last])[1..] == a[1..] + [last];
      TermsSplit(a[1..], last, node);
    }
  }

  lemma {:induction false} TermsAgree(terms: seq<Term>, node: string)
    ensures node in TermNodes(terms) <==> TermsName(terms, node)
  {
    if terms != [] {
      var last := |terms| - 1;
      TermsAgree(terms[..last], node);
      ExpressionsAgree(terms[last].expressions, node);
      assert terms == terms[..last] + [terms[last]];
      TermsSplit(terms[..last], terms[last], node);
    }
  }

  lemma {:induction false} AddAllMarks(q: Queues.Queue, nodes: seq<string>, k: Queues.Key)
    requires !q.shuttingDown
    ensures !AddAll(q, nodes).shuttingDown
    ensures k in AddAll(q, nodes).dirty <==> k in q.dirty || exists i :: 0 <= i < |nodes| && k == NodeKey(nodes[i])
  {
    if nodes != [] {
      var last := |nodes| - 1;
      AddAllMarks(q, nodes[..last], k);
      assert forall i | 0 <= i < last :: nodes[..last][i] == nodes[i];
    }
  }

  /** Nodes that are new to an open queue are queued in the order in which the volume names them. */
  lemma {:induction false} AddAllInOrder(q: Queues.Queue, nodes: seq<string>)
    requires !q.shuttingDown && forall i | 0 <= i < |nodes| :: NodeKey(nodes[i]) !in q.dirty + q.processing
    requires forall i, j | 0 <= i < j < |nodes| :: nodes[i] != nodes[j]
    ensures var q' := AddAll(q, nodes);
            && |q'.fifo| == |q.fifo| + |nodes| && q'.fifo[..|q.fifo|] == q.fifo && q'.processing == q.processing
            && forall i | 0 <= i < |nodes| :: q'.fifo[|q.fifo| + i] == NodeKey(nodes[i])
  {
    if nodes != [] {
      var last := |nodes| - 1;
      AddAllInOrder(q, nodes[..last]);
      AddAllMarks(q, nodes[..last], NodeKey(nodes[last]));
      assert forall i | 0 <= i < last :: nodes[..last][i] == nodes[i];
    }
  }

  /** On an open queue the handler marks a node's key exactly when the volume is on that node,
      so an event that passes the node's filter always wakes that node up. */
  lemma RoutingAgreement(q: Queues.Queue, pv: Volume, node: string)
    requires !q.shuttingDown
    ensures NodeKey(node) in AddAll(q, VolumeNodes(pv)).dirty
            <==> NodeKey(node) in q.dirty || IsPVInMyNode(pv, node)
  {
    var nodes := VolumeNodes(pv);
    AddAllMarks(q, nodes, NodeKey(node));
    if pv.affinity.Some? && pv.affinity.value.required.Some? {
      TermsAgree(pv.affinity.value.required.value, node);
    }
    assert node in nodes <==> exists i :: 0 <= i < |nodes| && NodeKey(node) == NodeKey(nodes[i]);
  }

  // -------------------------------------------------- what the worker receives

  /** The string a worker passes to its reconciler. */
  function SafeKey(k: Queues.Key): string {
    if k.namespace == "" then k.name else MakePVCKey(k.namespace, k.name)
  }

  /** The reconciler gets back the key that was queued exactly when its parts are free of slashes. */
  lemma ReconcilerSplitsTheQueuedKey(k: Queues.Key)
    ensures SplitMetaNamespaceKey(SafeKey(k)) == Some((k.namespace, k.name))
            <==> SLASH !in k.namespace && SLASH !in k.name
    ensures SLASH !in k.name ==> (SLASH in SafeKey(k) <==> k.namespace != "")
  {
    if k.namespace == "" {
      if SLASH !in k.name {
        SplitWithoutSeparator(k.name, SLASH);
      }
    } else {
      SplitInvertsMake(k.namespace, k.name);
    }
  }

  /** A key splits if and only if it has at most one slash, and then its parts make it up again. */
  lemma SplitsExactly(key: string)
    ensures SplitMetaNamespaceKey(key).Some? <==> Occurrences(key, SLASH) <= 1
    ensures Occurrences(key, SLASH) == 0 ==> SplitMetaNamespaceKey(key) == Some(("", key))
    ensures Occurrences(key, SLASH) == 1 ==>
              var (namespace, name) := SplitMetaNamespaceKey(key).value; MakePVCKey(namespace, name) == key
  {
    if Occurrences(key, SLASH) == 0 {
      NoOccurrences(key, SLASH);
      SplitWithoutSeparator(key, SLASH);
    } else if Occurrences(key, SLASH) == 1 {
      MakeInvertsSplit(key);
    }
  }

  /** A node's queued key makes that node's reconcile work on its own record, and every other
      node's reconcile do nothing. */
  lemma OtherNodesKeyIsNoConcern(other: string, node: string, cache: map<ObjectKey, Record>, vg: Option<VGInfo>)
    requires SLASH !in other
    ensures Concerns(node, SafeKey(NodeKey(other)), cache, vg)
            <==> other == node && (NAMESPACE_DEFAULT, node) in cache && vg.Some?
  {
    ReconcilerSplitsTheQueuedKey(NodeKey(other));
  }
}
