/**
 * The workflow graph as values: nodes, edges and the pure list transformations the editor
 * in pages/WorkflowBuilder.tsx applies to them (update by id, delete by id, restyle on
 * import), together with the workflow document used for export and import.
 */
module WorkflowGraph {
  import opened Wrappers
  import opened NodeStyle

  /**
   * A node's `data` object. The editor reads and writes the keys "label", "agentId",
   * "config" and (after a retype) "type"; an absent key is JavaScript's `undefined`.
   */
  type NodeData = map<string, string>

  /** A partial `data` object handed to an update; its keys override the node's. */
  type Patch = map<string, string>

  datatype Position = Position(x: real, y: real)

  /** A canvas node. `nodeType` is the node's `type` property, which may be absent. */
  datatype Node = Node(id: string, nodeType: Option<string>, position: Position, data: NodeData, style: Option<Style>)

  /** A directed edge; endpoints are node ids and are never checked against the node list. */
  datatype Edge = Edge(id: string, source: string, target: string, animated: bool, stroke: Option<string>)

  /** The whole graph: the ordered node list and the edge list. */
  datatype Graph = Graph(nodes: seq<Node>, edges: seq<Edge>)

  /** `node.type || 'default'`: an absent or empty type reads as "default". */
  function TypeOrDefault(t: Option<string>): (r: string)
    ensures r != ""
    ensures t.Some? && t.value != "" ==> r == t.value
  {
    if t.Some? && t.value != "" then t.value else "default"
  }

  /** The style a node's type calls for. */
  function CanonicalStyle(n: Node): Style {
    GetNodeStyle(TypeOrDefault(n.nodeType))
  }

  predicate HasCanonicalStyle(n: Node) {
    n.style == Some(CanonicalStyle(n))
  }

  /** Every node is drawn with the style its type calls for. */
  predicate AllCanonical(ns: seq<Node>) {
    forall i :: 0 <= i < |ns| ==> HasCanonicalStyle(ns[i])
  }

  /** Some node of `ns` has id `id`. */
  predicate HasNodeId(ns: seq<Node>, id: string) {
    exists i :: 0 <= i < |ns| && ns[i].id == id
  }

  /** Two nodes agree on everything but their style. */
  predicate SameExceptStyle(a: Node, b: Node) {
    a.id == b.id && a.nodeType == b.nodeType && a.position == b.position && a.data == b.data
  }

  // ---------------------------------------------------------------------------------------
  // Update by id (handleUpdateNode)

  /** `{ ...data, ...patch }`: the shallow merge of a patch into a node's data. */
  function MergeData(d: NodeData, patch: Patch): (r: NodeData)
    ensures r.Keys == d.Keys + patch.Keys
    ensures forall k :: k in patch ==> r[k] == patch[k]
    ensures forall k :: k in d && k !in patch ==> r[k] == d[k]
  {
    d + patch
  }

  /** `if (data.type)`: the patch carries a non-empty type. */
  predicate RetypesNode(patch: Patch)
    ensures RetypesNode(patch) ==> "type" in patch && TypeOrDefault(Some(patch["type"])) == patch["type"]
  {
    "type" in patch && patch["type"] != ""
  }

  /** One node after an update: data merged; type and style recomputed only on a retype. */
  function ApplyPatch(n: Node, patch: Patch): (r: Node)
    ensures r.id == n.id && r.position == n.position
    ensures r.data == MergeData(n.data, patch)
    ensures RetypesNode(patch) ==> r.nodeType == Some(patch["type"]) && r.style == Some(GetNodeStyle(patch["type"]))
    ensures !RetypesNode(patch) ==> r.nodeType == n.nodeType && r.style == n.style
  {
    var merged := n.(data := MergeData(n.data, patch));
    if RetypesNode(patch) then merged.(nodeType := Some(patch["type"]), style := Some(GetNodeStyle(patch["type"])))
    else merged
  }

  /**
   * The node list after `handleUpdateNode(id, patch)`: same length and order, every node
   * with id `id` patched, every other node untouched.
   */
  function UpdateNodes(ns: seq<Node>, id: string, patch: Patch): (r: seq<Node>)
    ensures |r| == |ns|
    ensures forall i :: 0 <= i < |ns| ==> r[i].id == ns[i].id
    ensures forall i :: 0 <= i < |ns| && ns[i].id != id ==> r[i] == ns[i]
    ensures forall i :: 0 <= i < |ns| && ns[i].id == id ==> r[i] == ApplyPatch(ns[i], patch)
    ensures !HasNodeId(ns, id) ==> r == ns
  {
    if ns == [] then []
    else [if ns[0].id == id then ApplyPatch(ns[0], patch) else ns[0]] + UpdateNodes(ns[1..], id, patch)
  }

  /** An update keeps every node drawn with the style its type calls for. */
  lemma UpdateKeepsCanonical(ns: seq<Node>, id: string, patch: Patch)
    requires AllCanonical(ns)
    ensures AllCanonical(UpdateNodes(ns, id, patch))
  {
    var r := UpdateNodes(ns, id, patch);
    forall i | 0 <= i < |r| ensures HasCanonicalStyle(r[i]) {
      if ns[i].id == id && RetypesNode(patch) {
        assert TypeOrDefault(r[i].nodeType) == patch["type"];
      }
    }
  }

  /** Retyping through an update draws every node with that id in the new type's style. */
  lemma RetypeSetsStyle(ns: seq<Node>, id: string, t: string)
    requires t != ""
    ensures forall i :: 0 <= i < |ns| && ns[i].id == id ==>
              UpdateNodes(ns, id, map["type" := t])[i].nodeType == Some(t) &&
              UpdateNodes(ns, id, map["type" := t])[i].style == Some(GetNodeStyle(t)) &&
              UpdateNodes(ns, id, map["type" := t])[i].data["type"] == t
  {
  }

  // ---------------------------------------------------------------------------------------
  // Delete by id (handleDeleteNode)

  /** `nodes.filter(node => node.id !== id)`. */
  function RemoveNode(ns: seq<Node>, id: string): (r: seq<Node>)
    ensures |r| <= |ns|
    ensures !HasNodeId(r, id)
    ensures !HasNodeId(ns, id) ==> r == ns
  {
    if ns == [] then []
    else (if ns[0].id == id then [] else [ns[0]]) + RemoveNode(ns[1..], id)
  }

  /** The filter keeps exactly the nodes whose id differs from `id`. */
  lemma {:induction false} RemoveNodeMembers(ns: seq<Node>, id: string)
    ensures forall n :: n in RemoveNode(ns, id) <==> n in ns && n.id != id
  {
    if ns != [] {
      RemoveNodeMembers(ns[1..], id);
      assert ns == [ns[0]] + ns[1..];
    }
  }

  /** The filter keeps relative order: it distributes over concatenation. */
  lemma {:induction false} RemoveNodeDistributes(a: seq<Node>, b: seq<Node>, id: string)
    ensures RemoveNode(a + b, id) == RemoveNode(a, id) + RemoveNode(b, id)
  {
    if a == [] {
      assert a + b == b;
    } else {
      var head := if a[0].id == id then [] else [a[0]];
      calc {
        RemoveNode(a + b, id);
        { assert (a + b)[0] == a[0] && (a + b)[1..] == a[1..] + b; }
        head + RemoveNode(a[1..] + b, id);
        { RemoveNodeDistributes(a[1..], b, id); }
        head + (RemoveNode(a[1..], id) + RemoveNode(b, id));
        (head + RemoveNode(a[1..], id)) + RemoveNode(b, id);
        RemoveNode(a, id) + RemoveNode(b, id);
      }
    }
  }

  /** Deleting one id leaves every other id where it was. */
  lemma RemoveNodeKeepsOtherIds(ns: seq<Node>, id: string, other: string)
    requires other != id
    ensures HasNodeId(RemoveNode(ns, id), other) <==> HasNodeId(ns, other)
  {
    var r := RemoveNode(ns, id);
    RemoveNodeMembers(ns, id);
    if HasNodeId(ns, other) {
      var i :| 0 <= i < |ns| && ns[i].id == other;
      assert ns[i] in r;
    }
    if HasNodeId(r, other) {
      var i :| 0 <= i < |r| && r[i].id == other;
      assert r[i] in ns;
    }
  }

  /** A deletion keeps every remaining node's canonical style. */
  lemma RemoveKeepsCanonical(ns: seq<Node>, id: string)
    requires AllCanonical(ns)
    ensures AllCanonical(RemoveNode(ns, id))
  {
    var r := RemoveNode(ns, id);
    RemoveNodeMembers(ns, id);
    forall i | 0 <= i < |r| ensures HasCanonicalStyle(r[i]) {
      assert r[i] in ns;
    }
  }

  // ---------------------------------------------------------------------------------------
  // Creation (addNode)

  /** The node addNode appends: empty agent, config "{}", drawn in its type's style. */
  function NewNode(id: string, title: string, nodeType: string, position: Position): (n: Node)
    ensures HasCanonicalStyle(n)
    ensures n.id == id && n.position == position && n.nodeType == Some(nodeType)
    ensures n.data.Keys == {"label", "agentId", "config"}
    ensures n.data["label"] == title && n.data["agentId"] == "" && n.data["config"] == "{}"
  {
    Node(id, Some(nodeType), position, map["label" := title, "agentId" := "", "config" := "{}"],
         Some(GetNodeStyle(nodeType)))
  }

  // ---------------------------------------------------------------------------------------
  // Export and import (exportToJson, importFromJson)

  /** A document field that JSON.parse produced: an array, or anything else. */
  datatype JsonArray<T> = Array(items: seq<T>) | NotArray

  /** A workflow document as read back by JSON.parse. */
  datatype WorkflowDocument = WorkflowDocument(
    nodes: JsonArray<Node>,
    edges: JsonArray<Edge>,
    exportedAt: string,
    version: string)

  /** The text of an imported file, after JSON.parse: it either threw or gave a document. */
  datatype ParsedFile = Unparseable | Parsed(doc: WorkflowDocument)

  datatype ImportError = InvalidJson | InvalidStructure

  const ExportVersion := "1.0.0"

  /** The `{nodes, edges, exportedAt, version}` document exportToJson writes. */
  function ExportDocument(g: Graph, exportedAt: string): (d: WorkflowDocument)
    ensures d.nodes == Array(g.nodes) && d.edges == Array(g.edges)
    ensures d.version == "1.0.0" && d.exportedAt == exportedAt
  {
    WorkflowDocument(Array(g.nodes), Array(g.edges), exportedAt, ExportVersion)
  }

  /** `{ ...node, style: getNodeStyle(node.type || 'default') }`. */
  function Restyle(n: Node): (r: Node)
    ensures SameExceptStyle(r, n)
    ensures HasCanonicalStyle(r)
    ensures HasCanonicalStyle(n) ==> r == n
  {
    n.(style := Some(CanonicalStyle(n)))
  }

  /** Restyles every node of an imported list, keeping the list's order. */
  function RestyleAll(ns: seq<Node>): (r: seq<Node>)
    ensures |r| == |ns|
    ensures forall i :: 0 <= i < |ns| ==> r[i] == Restyle(ns[i])
  {
    if ns == [] then [] else [Restyle(ns[0])] + RestyleAll(ns[1..])
  }

  /**
   * The import rule: the document is accepted iff both `nodes` and `edges` are arrays; the
   * edges are then taken verbatim and every node keeps all its fields except its style,
   * which is recomputed from its type.
   */
  function ImportGraph(f: ParsedFile): (r: Result<Graph, ImportError>)
    ensures r.Success? <==> f.Parsed? && f.doc.nodes.Array? && f.doc.edges.Array?
    ensures f.Unparseable? ==> r == Failure(InvalidJson)
    ensures r.Success? ==> r.value.edges == f.doc.edges.items
    ensures r.Success? ==> |r.value.nodes| == |f.doc.nodes.items| && AllCanonical(r.value.nodes)
    ensures r.Success? ==> forall i :: 0 <= i < |r.value.nodes| ==> SameExceptStyle(r.value.nodes[i], f.doc.nodes.items[i])
  {
    match f
    case Unparseable => Failure(InvalidJson)
    case Parsed(doc) =>
      if doc.nodes.Array? && doc.edges.Array? then Success(Graph(RestyleAll(doc.nodes.items), doc.edges.items))
      else Failure(InvalidStructure)
  }

  /** Restyling a list whose styles are already canonical changes nothing. */
  lemma {:induction false} RestyleAllCanonical(ns: seq<Node>)
    requires AllCanonical(ns)
    ensures RestyleAll(ns) == ns
  {
    var r := RestyleAll(ns);
    forall i | 0 <= i < |ns| ensures r[i] == ns[i] {
      assert HasCanonicalStyle(ns[i]);
    }
  }

  /**
   * Export then import gives back the same graph whenever every node already carries the
   * style its type calls for.
   */
  lemma ExportImportRoundTrip(g: Graph, exportedAt: string)
    requires AllCanonical(g.nodes)
    ensures ImportGraph(Parsed(ExportDocument(g, exportedAt))) == Success(g)
  {
    RestyleAllCanonical(g.nodes);
  }

  /**
   * For any graph at all, export then import succeeds, keeps the edges and keeps every
   * node but its style.
   */
  lemma ExportImportKeepsContent(g: Graph, exportedAt: string)
    ensures var r := ImportGraph(Parsed(ExportDocument(g, exportedAt)));
            r.Success? && r.value.edges == g.edges && |r.value.nodes| == |g.nodes| &&
            forall i :: 0 <= i < |g.nodes| ==> SameExceptStyle(r.value.nodes[i], g.nodes[i])
  {
  }

  /** A graph that was imported once survives any later export and re-import unchanged. */
  lemma ImportedGraphIsStable(f: ParsedFile, exportedAt: string)
    requires ImportGraph(f).Success?
    ensures ImportGraph(Parsed(ExportDocument(ImportGraph(f).value, exportedAt))) == ImportGraph(f)
  {
    ExportImportRoundTrip(ImportGraph(f).value, exportedAt);
  }

  /** A document without an array in `nodes` or in `edges` is rejected as malformed. */
  lemma RejectsMissingArrays(doc: WorkflowDocument)
    requires doc.nodes.NotArray? || doc.edges.NotArray?
    ensures ImportGraph(Parsed(doc)) == Failure(InvalidStructure)
  {
  }
}
