/** Persistent volumes as the agent sees them, and the node each of them lives on. */
module Volumes {
  import opened Wrappers
  import opened Keys

  const TOPOLOGY_NODE_KEY := "topology.local.volume.csi/hostname"

  datatype Expression = Expression(key: string, values: seq<string>)
  datatype Term = Term(expressions: seq<Expression>)
  datatype NodeAffinity = NodeAffinity(required: Option<seq<Term>>)

  datatype Phase = Pending | Available | Bound | Released | Failed

  datatype Volume = Volume(affinity: Option<NodeAffinity>, phase: Phase, claim: (string, string))

  predicate ExpressionsName(expressions: seq<Expression>, node: string) {
    expressions != [] &&
    ((expressions[0].key == TOPOLOGY_NODE_KEY && node in expressions[0].values)
     || ExpressionsName(expressions[1..], node))
  }

  predicate TermsName(terms: seq<Term>, node: string) {
    terms != [] && (ExpressionsName(terms[0].expressions, node) || TermsName(terms[1..], node))
  }

  predicate IsPVInMyNode(pv: Volume, node: string) {
    && pv.affinity.Some?
    && pv.affinity.value.required.Some?
    && TermsName(pv.affinity.value.required.value, node)
  }

  /** A volume lives on a node if and only if some expression of some term lists the node under the
      topology key. */
  lemma IsPVInMyNodeExactly(pv: Volume, node: string)
    ensures IsPVInMyNode(pv, node) <==>
            && pv.affinity.Some? && pv.affinity.value.required.Some?
            && exists t, e :: Lists(pv.affinity.value.required.value, t, e, node)
  {
    if pv.affinity.Some? && pv.affinity.value.required.Some? {
      TermsNameExactly(pv.affinity.value.required.value, node);
    }
  }

  predicate Lists(terms: seq<Term>, t: int, e: int, node: string) {
    && 0 <= t < |terms| && 0 <= e < |terms[t].expressions|
    && terms[t].expressions[e].key == TOPOLOGY_NODE_KEY && node in terms[t].expressions[e].values
  }

  predicate ListsAt(expressions: seq<Expression>, e: int, node: string) {
    0 <= e < |expressions| && expressions[e].key == TOPOLOGY_NODE_KEY && node in expressions[e].values
  }

  lemma {:induction false} ExpressionsNameExactly(expressions: seq<Expression>, node: string)
    ensures ExpressionsName(expressions, node) <==> exists e :: ListsAt(expressions, e, node)
  {
    if expressions != [] {
      var rest := expressions[1..];
      ExpressionsNameExactly(rest, node);
      if e :| ListsAt(rest, e, node) {
        assert ListsAt(expressions, e + 1, node);
      }
      if e :| ListsAt(expressions, e, node) {
        assert e == 0 || ListsAt(rest, e - 1, node);
      }
      assert ListsAt(expressions, 0, node) <==> expressions[0].key == TOPOLOGY_NODE_KEY && node in expressions[0].values;
    }
  }

  lemma {:induction false} TermsNameExactly(terms: seq<Term>, node: string)
    ensures TermsName(terms, node) <==> exists t, e :: Lists(terms, t, e, node)
  {
    if terms != [] {
      var rest := terms[1..];
      ExpressionsNameExactly(terms[0].expressions, node);
      TermsNameExactly(rest, node);
      if e :| ListsAt(terms[0].expressions, e, node) {
        assert Lists(terms, 0, e, node);
      }
      if t, e :| Lists(rest, t, e, node) {
        assert Lists(terms, t + 1, e, node);
      }
      if t, e :| Lists(terms, t, e, node) {
        assert if t == 0 then ListsAt(terms[0].expressions, e, node) else Lists(rest, t - 1, e, node);
      }
    }
  }

  /** The volume is bound on the node to the claim of key `k`. */
  predicate ShowsBound(v: Volume, node: string, k: string) {
    IsPVInMyNode(v, node) && v.phase == Bound && k == MakePVCKey(v.claim.0, v.claim.1)
  }

  /** The keys of the claims bound to a volume on `node`. */
  function BoundKeys(volumes: seq<Volume>, node: string): set<string> {
    set i | 0 <= i < |volumes| && IsPVInMyNode(volumes[i], node) && volumes[i].phase == Bound
      :: MakePVCKey(volumes[i].claim.0, volumes[i].claim.1)
  }

  method GetMyNodeBoundedPVCList(listed: Option<seq<Volume>>, node: string) returns (result: map<string, string>)
    ensures result.Keys == if listed.Some? then BoundKeys(listed.value, node) else {}
  {
    result := map[];
    if listed.None? {
      return;
    }
    var volumes := listed.value;
    for i := 0 to |volumes|
      invariant result.Keys == BoundKeys(volumes[..i], node)
    {
      var pv := volumes[i];
      assert forall j | 0 <= j < i :: volumes[..i + 1][j] == volumes[..i][j];
      assert volumes[..i + 1][i] == pv;
      if IsPVInMyNode(pv, node) && pv.phase == Bound {
        result := result[MakePVCKey(pv.claim.0, pv.claim.1) := ""];
      }
    }
    assert volumes[..|volumes|] == volumes;
  }

  /** A pruned key names a claim, so it holds a slash and is never empty. */
  lemma BoundKeysHoldASlash(volumes: seq<Volume>, node: string)
    ensures "" !in BoundKeys(volumes, node)
  {
  }

  /** A key is listed if and only if some volume of the list shows its claim bound. */
  lemma BoundKeysExactly(volumes: seq<Volume>, node: string, k: string)
    ensures k in BoundKeys(volumes, node) <==> exists i :: 0 <= i < |volumes| && ShowsBound(volumes[i], node, k)
  {
    hide IsPVInMyNode, MakePVCKey;
  }
}
