/**
 * The editor state of pages/WorkflowBuilder.tsx: the node list, the edge list, the selected
 * node and the transient status message, changed in place by the page's event handlers.
 */
module WorkflowBuilder {
  import opened Wrappers
  import opened NodeStyle
  import opened WorkflowGraph

  datatype StatusKind = SuccessStatus | ErrorStatus | InfoStatus

  datatype StatusMessage = StatusMessage(text: string, kind: StatusKind)

  /** A change reported by the canvas; only `remove` changes matter to the selection. */
  datatype NodeChange = RemoveChange(id: string) | OtherChange

  /** Some change in `changes` removes the node with id `id`. */
  predicate RemovesNode(changes: seq<NodeChange>, id: string) {
    exists i :: 0 <= i < |changes| && changes[i] == RemoveChange(id)
  }

  /** What the canvas library promises: a node no change removes keeps its id in the result. */
  predicate KeepsUnremoved(before: seq<Node>, changes: seq<NodeChange>, after: seq<Node>) {
    forall i :: 0 <= i < |before| && !RemovesNode(changes, before[i].id) ==> HasNodeId(after, before[i].id)
  }

  /** The selection, if any, names a node that is on the canvas. */
  predicate SelectionPresent(ns: seq<Node>, selected: Option<Node>) {
    selected.Some? ==> HasNodeId(ns, selected.value.id)
  }

  const InitialNodes: seq<Node> := [
    Node("1", Some("input"), Position(250.0, 5.0),
         map["label" := "Web Trigger", "agentId" := "agent-01", "config" := "{}"],
         Some(GetNodeStyle("input"))),
    Node("2", None, Position(100.0, 150.0),
         map["label" := "Summarizer Agent", "agentId" := "agent-02", "config" := "{\"maxLength\": 500}"],
         Some(GetNodeStyle("default"))),
    Node("3", Some("output"), Position(400.0, 150.0),
         map["label" := "Slack Notifier", "agentId" := "agent-05", "config" := "{\"channel\": \"#alerts\"}"],
         Some(GetNodeStyle("output")))
  ]

  const InitialEdges: seq<Edge> := [
    Edge("e1-2", "1", "2", true, Some("#6366f1")),
    Edge("e1-3", "1", "3", false, Some("#475569"))
  ]

  class WorkflowEditor {
    var nodes: seq<Node>
    var edges: seq<Edge>
    var selected: Option<Node>
    var status: Option<StatusMessage>

    /** The selected node, if any, is still on the canvas. */
    ghost predicate SelectionInGraph()
      reads this
    {
      SelectionPresent(nodes, selected)
    }

    constructor ()
      ensures nodes == InitialNodes && edges == InitialEdges
      ensures selected == None && status == None
      ensures AllCanonical(nodes) && SelectionInGraph()
    {
      nodes := InitialNodes;
      edges := InitialEdges;
      selected := None;
      status := None;
    }

    /** onNodeClick: the clicked canvas node becomes the selection. */
    method SelectNode(n: Node)
      requires HasNodeId(nodes, n.id)
      modifies this`selected
      ensures selected == Some(n) && SelectionInGraph()
    {
      selected := Some(n);
    }

    /** onPaneClick, and the configuration panel's close button. */
    method ClearSelection()
      modifies this`selected
      ensures selected == None && SelectionInGraph()
    {
      selected := None;
    }

    /**
     * onNodesChange: the node list becomes the canvas library's result `applied`; a remove
     * change for the selected node's id clears the selection. The loop compares against the
     * selection captured when the handler was created, as the closure does.
     */
    method OnNodesChange(changes: seq<NodeChange>, applied: seq<Node>)
      modifies this`nodes, this`selected
      ensures nodes == applied
      ensures selected == if old(selected).Some? && RemovesNode(changes, old(selected).value.id) then None else old(selected)
      ensures old(SelectionInGraph()) && KeepsUnremoved(old(nodes), changes, applied) ==> SelectionInGraph()
    {
      var before := nodes;
      nodes := applied;
      var captured := selected;
      var i := 0;
      while i < |changes|
        invariant 0 <= i <= |changes|
        invariant nodes == applied
        invariant selected == if captured.Some? && exists j :: 0 <= j < i && changes[j] == RemoveChange(captured.value.id)
                              then None else captured
      {
        if changes[i].RemoveChange? && captured.Some? && changes[i].id == captured.value.id {
          selected := None;
        }
        i := i + 1;
      }
      if old(SelectionInGraph()) && KeepsUnremoved(before, changes, applied) && selected.Some? {
        var k :| 0 <= k < |before| && before[k].id == selected.value.id;
        assert !RemovesNode(changes, before[k].id);
      }
    }

    /** handleUpdateNode: merge `patch` into the data of every node with id `id`. */
    method UpdateNode(id: string, patch: Patch)
      modifies this`nodes
      ensures nodes == UpdateNodes(old(nodes), id, patch)
      ensures old(AllCanonical(nodes)) ==> AllCanonical(nodes)
      ensures old(SelectionInGraph()) ==> SelectionInGraph()
    {
      if AllCanonical(nodes) {
        UpdateKeepsCanonical(nodes, id, patch);
      }
      ghost var before := nodes;
      nodes := UpdateNodes(nodes, id, patch);
      if old(SelectionInGraph()) && selected.Some? {
        var k :| 0 <= k < |before| && before[k].id == selected.value.id;
        assert nodes[k].id == selected.value.id;
      }
    }

    /**
     * handleDeleteNode: drop the nodes with id `id` and clear the selection. The edges are
     * not touched, so edges into or out of the deleted node remain.
     */
    method DeleteNode(id: string)
      modifies this`nodes, this`selected
      ensures nodes == RemoveNode(old(nodes), id)
      ensures selected == None && SelectionInGraph()
      ensures old(AllCanonical(nodes)) ==> AllCanonical(nodes)
    {
      if AllCanonical(nodes) {
        RemoveKeepsCanonical(nodes, id);
      }
      nodes := RemoveNode(nodes, id);
      selected := None;
    }

    /**
     * addNode(title, type): append one node. Its id and its position are generated from the
     * clock and a random source in the page, so both are passed in here.
     */
    method AddNode(title: string, nodeType: string, id: string, position: Position)
      modifies this`nodes
      ensures nodes == old(nodes) + [NewNode(id, title, nodeType, position)]
      ensures old(AllCanonical(nodes)) ==> AllCanonical(nodes)
      ensures old(SelectionInGraph()) ==> SelectionInGraph()
    {
      ghost var before := nodes;
      nodes := nodes + [NewNode(id, title, nodeType, position)];
      if old(SelectionInGraph()) && selected.Some? {
        var k :| 0 <= k < |before| && before[k].id == selected.value.id;
        assert nodes[k] == before[k];
      }
    }

    /** The "Clear Canvas" button as written: only the node list is emptied. */
    method ClearCanvasAsWritten()
      modifies this`nodes
      ensures nodes == [] && edges == old(edges) && selected == old(selected)
      ensures selected.Some? ==> !SelectionInGraph()
    {
      nodes := [];
    }

    /** The "Clear Canvas" button with the selection cleared as well, as deletion does. */
    method ClearCanvas()
      modifies this`nodes, this`selected
      ensures nodes == [] && edges == old(edges) && selected == None
      ensures SelectionInGraph()
    {
      nodes := [];
      selected := None;
    }

    /** exportToJson: the document of the current graph, and a success notice. */
    method ExportToJson(exportedAt: string) returns (doc: WorkflowDocument)
      modifies this`status
      ensures doc == ExportDocument(Graph(nodes, edges), exportedAt)
      ensures status == Some(StatusMessage("Workflow exported successfully!", SuccessStatus))
    {
      doc := ExportDocument(Graph(nodes, edges), exportedAt);
      status := Some(StatusMessage("Workflow exported successfully!", SuccessStatus));
    }

    /**
     * importFromJson, once the file has been read and parsed: on success the whole graph is
     * replaced and the selection cleared; on failure nothing but the notice changes.
     */
    method ImportFromJson(file: ParsedFile)
      modifies this`nodes, this`edges, this`selected, this`status
      ensures ImportGraph(file).Success? ==>
                Graph(nodes, edges) == ImportGraph(file).value && selected == None &&
                status == Some(StatusMessage("Workflow imported successfully!", SuccessStatus))
      ensures ImportGraph(file).Failure? ==>
                nodes == old(nodes) && edges == old(edges) && selected == old(selected) &&
                status == Some(StatusMessage("Invalid workflow file", ErrorStatus))
      ensures AllCanonical(nodes) || nodes == old(nodes)
    {
      match ImportGraph(file)
      case Success(g) =>
        nodes := g.nodes;
        edges := g.edges;
        selected := None;
        status := Some(StatusMessage("Workflow imported successfully!", SuccessStatus));
      case Failure(_) =>
        status := Some(StatusMessage("Invalid workflow file", ErrorStatus));
    }
  }

  /**
   * Clear Canvas as written leaves the configuration panel bound to a node that is no
   * longer on the canvas: select node "1", clear, and the selection still names "1".
   */
  method ClearCanvasKeepsStaleSelection() returns (stillSelected: bool, onCanvas: bool)
    ensures stillSelected && !onCanvas
  {
    var editor := new WorkflowEditor();
    assert InitialNodes[0].id == "1";
    editor.SelectNode(InitialNodes[0]);
    editor.ClearCanvasAsWritten();
    stillSelected := editor.selected == Some(InitialNodes[0]);
    onCanvas := SelectionPresent(editor.nodes, editor.selected);
  }
}
