/** internal/shadow/node.go: whether a node can host a phantom right now. */
module Nodes {
  import opened Wrappers

  datatype NodeCondition = NodeCondition(kind: string, status: string)

  datatype Node = Node(terminating: bool, conditions: seq<NodeCondition>)

  datatype Eligibility = Eligible | Missing | Terminating | NotReady

  /** The first Ready condition exists and is True. */
  ghost predicate ReadsReady(conditions: seq<NodeCondition>) {
    exists i :: 0 <= i < |conditions| && conditions[i] == NodeCondition("Ready", "True")
                && forall j :: 0 <= j < i ==> conditions[j].kind != "Ready"
  }

  /** A present, non-terminating node whose Ready condition is True; anything short of that names the first gap. */
  ghost function EligibilityOf(node: Option<Node>): Eligibility {
    if node.None? then Missing
    else if node.value.terminating then Terminating
    else if ReadsReady(node.value.conditions) then Eligible
    else NotReady
  }

  /** The first condition of kind Ready decides; one that is not there at all counts as not ready. */
  method NodeEligible(node: Option<Node>) returns (ok: bool, why: Eligibility)
    ensures ok <==> node.Some? && !node.value.terminating && ReadsReady(node.value.conditions)
    ensures ok <==> why == Eligible
    ensures node.None? <==> why == Missing
    ensures node.Some? && node.value.terminating <==> why == Terminating
    ensures why == EligibilityOf(node)
  {
    if node.None? {
      return false, Missing;
    }
    if node.value.terminating {
      return false, Terminating;
    }
    var conditions := node.value.conditions;
    for i := 0 to |conditions|
      invariant forall j :: 0 <= j < i ==> conditions[j].kind != "Ready"
    {
      var c := conditions[i];
      if c.kind == "Ready" {
        if c.status != "True" {
          return false, NotReady;
        }
        assert c == NodeCondition("Ready", "True");
        return true, Eligible;
      }
    }
    return false, NotReady;
  }
}
