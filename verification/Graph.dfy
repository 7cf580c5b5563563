/** The graph as it is wired, and what can be reached in it. */
module Graph {
  import opened Schemas
  import opened Text

  datatype Node =
    | IntakeNode | InvestigatorNode | CollectorsNode | PlannerNode
    | DevNode | VerifierNode | ReviewerNode | CoordinatorNode

  datatype Target = At(node: Node) | End

  const NODES: set<Node> :=
    {IntakeNode, InvestigatorNode, CollectorsNode, PlannerNode, DevNode, VerifierNode, ReviewerNode, CoordinatorNode}

  const MAX_INVESTIGATION_ATTEMPTS: nat := 5

  function RouteAfterInvestigator(s: IncidentState): Node {
    if s.attempts >= MAX_INVESTIGATION_ATTEMPTS then CoordinatorNode
    else if AnyConfirmed(s.hypotheses) then PlannerNode
    else CollectorsNode
  }

  /** Every edge of the compiled graph; the investigator's three are conditional. */
  function Wiring(): set<(Node, Target)> {
    { (IntakeNode, At(InvestigatorNode)),
      (InvestigatorNode, At(CollectorsNode)), (InvestigatorNode, At(PlannerNode)),
      (InvestigatorNode, At(CoordinatorNode)),
      (CollectorsNode, At(InvestigatorNode)),
      (PlannerNode, At(CoordinatorNode)),
      (DevNode, At(VerifierNode)), (VerifierNode, At(ReviewerNode)), (ReviewerNode, At(CoordinatorNode)),
      (CoordinatorNode, End) }
  }

  class StateGraph {
    var nodes: set<Node>
    var entry: Option<Node>
    var edges: set<(Node, Target)>

    constructor ()
      ensures nodes == {} && entry == None && edges == {}
    {
      nodes, entry, edges := {}, None, {};
    }

    method AddNode(n: Node)
      modifies this`nodes
      ensures nodes == old(nodes) + {n}
    {
      nodes := nodes + {n};
    }

    method SetEntryPoint(n: Node)
      modifies this`entry
      ensures entry == Some(n)
    {
      entry := Some(n);
    }

    method AddEdge(from: Node, to: Target)
      modifies this`edges
      ensures edges == old(edges) + {(from, to)}
    {
      edges := edges + {(from, to)};
    }

    method AddConditionalEdges(from: Node, to: set<Node>)
      modifies this`edges
      ensures edges == old(edges) + set n | n in to :: (from, At(n))
    {
      edges := edges + set n | n in to :: (from, At(n));
    }
  }

  method AddNodes(g: StateGraph)
    modifies g`nodes
    ensures g.nodes == old(g.nodes) + NODES
  {
    g.AddNode(IntakeNode);
    g.AddNode(InvestigatorNode);
    g.AddNode(CollectorsNode);
    g.AddNode(PlannerNode);
    g.AddNode(DevNode);
    g.AddNode(VerifierNode);
    g.AddNode(ReviewerNode);
    g.AddNode(CoordinatorNode);
  }

  method Wire(g: StateGraph)
    requires g.edges == {}
    modifies g`edges
    ensures g.edges == Wiring()
  {
    g.AddEdge(IntakeNode, At(InvestigatorNode));
    g.AddConditionalEdges(InvestigatorNode, {CollectorsNode, PlannerNode, CoordinatorNode});
    assert g.edges == {(IntakeNode, At(InvestigatorNode)), (InvestigatorNode, At(CollectorsNode)),
                       (InvestigatorNode, At(PlannerNode)), (InvestigatorNode, At(CoordinatorNode))};
    g.AddEdge(CollectorsNode, At(InvestigatorNode));
    g.AddEdge(PlannerNode, At(CoordinatorNode));
    g.AddEdge(DevNode, At(VerifierNode));
    g.AddEdge(VerifierNode, At(ReviewerNode));
    g.AddEdge(ReviewerNode, At(CoordinatorNode));
    g.AddEdge(CoordinatorNode, End);
  }

  method BuildGraph() returns (g: StateGraph)
    ensures fresh(g)
    ensures g.entry == Some(IntakeNode) && g.edges == Wiring()
    ensures g.nodes == NODES
  {
    g := new StateGraph();
    AddNodes(g);
    g.SetEntryPoint(IntakeNode);
    Wire(g);
  }

  ghost predicate IsPath(path: seq<Node>) {
    && path != [] && path[0] == IntakeNode
    && forall i :: 0 <= i < |path| - 1 ==> (path[i], At(path[i + 1])) in Wiring()
  }

  /** No path of the wired graph leads from the entry point to Dev, Verifier or Reviewer. */
  lemma {:induction false} DevClusterUnreachable(path: seq<Node>)
    requires IsPath(path)
    ensures path[|path| - 1] !in {DevNode, VerifierNode, ReviewerNode}
  {
    if |path| == 1 {
    } else {
      var n := |path| - 1;
      assert IsPath(path[..n]);
      DevClusterUnreachable(path[..n]);
      assert (path[n - 1], At(path[n])) in Wiring();
    }
  }

  /** Where each node leads: one way on from every node but the investigator, which has three. */
  lemma WaysOn(n: Node, t: Target)
    ensures (n, t) in Wiring() <==>
      match n
      case IntakeNode => t == At(InvestigatorNode)
      case InvestigatorNode => t.At? && t.node in {CollectorsNode, PlannerNode, CoordinatorNode}
      case CollectorsNode => t == At(InvestigatorNode)
      case PlannerNode => t == At(CoordinatorNode)
      case DevNode => t == At(VerifierNode)
      case VerifierNode => t == At(ReviewerNode)
      case ReviewerNode => t == At(CoordinatorNode)
      case CoordinatorNode => t == End
  {
  }
}
