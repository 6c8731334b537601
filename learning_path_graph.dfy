// The learning-path graph of app/components/LearningPathGraph.tsx: a tree
// of topics is flattened into the nodes and edges React Flow draws, a
// dotted edge from foundations to tools is added once per data load, and
// clicks select a node or navigate to its tutorials.
//
// React Flow itself, the styles, colours and the delayed navigation are
// outside the model; the drawing state is a class whose fields are the
// component's state and its ref flag.

module LearningPathGraph {
  import opened Wrappers
  import opened Text

  /** One node of the path data (`GraphData`): children are nested records. */
  datatype GraphData = GraphData(
    id: string, caption: string, description: Option<string>, category: Option<string>,
    children: seq<GraphData>)

  datatype Point = Point(x: int, y: int)

  datatype Handle = Top | Right | Left

  datatype EdgeType = Straight | Smoothstep | Step

  datatype FlowNode = FlowNode(
    id: string, position: Point, caption: string, description: string, category: Option<string>,
    sourcePosition: Handle, targetPosition: Handle)

  datatype FlowEdge = FlowEdge(
    id: string, source: string, target: string, kind: EdgeType, animated: bool, dotted: bool)

  /** The nodes and edges pushed onto `flowNodes` and `flowEdges`. */
  datatype Flow = Flow(nodes: seq<FlowNode>, edges: seq<FlowEdge>)

  function Concat(a: Flow, b: Flow): Flow
  {
    Flow(a.nodes + b.nodes, a.edges + b.edges)
  }

  const Root: string := "root"
  const Foundations: string := "foundations"
  const DeepLearning: string := "deep-learning"
  const Tools: string := "tools-platforms"
  const RootDescription: string := "Learning Path Starting Point"

  /** The fixed coordinates of `layoutMap`. */
  const LayoutMap: map<string, Point> := map[
    "root" := Point(40, 220),
    "foundations" := Point(300, 220),
    "machine-learning" := Point(530, 220),
    "deep-learning" := Point(760, 220),
    "nlp" := Point(1000, 0),
    "computer-vision" := Point(1000, 160),
    "reinforcement-learning" := Point(1000, 300),
    "generative-ai" := Point(1000, 450),
    "tools-platforms" := Point(40, 350)]

  /** The four branches drawn from deep learning with a curved edge. */
  predicate IsRightBranch(id: string)
  {
    id == "nlp" || id == "computer-vision" || id == "reinforcement-learning" || id == "generative-ai"
  }

  lemma LayoutMapFacts()
    ensures Root in LayoutMap && "" !in LayoutMap
    ensures Foundations in LayoutMap && Tools in LayoutMap
  {
  }

  // ---------------------------------------------------------------------
  // One node and one edge

  /** The connection points: the if-chain on the node id, starting from right/left. */
  function Handles(id: string): (h: (Handle, Handle))
    ensures id == Tools ==> h == (Top, Top)
    ensures id != Tools ==> h == (Right, Left)
  {
    var initial := (Right, Left);
    if id == Tools then (Top, Top)
    else if Contains(id, "nlp") || Contains(id, "computer-vision") ||
            Contains(id, "reinforcement-learning") || Contains(id, "generative-ai") then (initial.0, Left)
    else if id == DeepLearning then (Right, Left)
    else (Right, Left)
  }

  /** The node drawn for a record whose id has a position. */
  function NodeFor(layout: map<string, Point>, node: GraphData): (n: FlowNode)
    requires node.id in layout
    ensures n.id == node.id && n.position == layout[node.id] && n.caption == node.caption
    ensures n.description == OrElse(node.description, "") && n.category == node.category
    ensures n.id == Tools ==> n.sourcePosition == Top && n.targetPosition == Top
    ensures n.id != Tools ==> n.sourcePosition == Right && n.targetPosition == Left
  {
    var h := Handles(node.id);
    FlowNode(node.id, layout[node.id], node.caption, OrElse(node.description, ""), node.category, h.0, h.1)
  }

  /** The edge from `parentId` to `id`, animated when either end is the node selected at load time. */
  function EdgeFor(parentId: string, id: string, selected: Option<string>): (e: FlowEdge)
    ensures e.id == "e" + parentId + "-" + id && e.source == parentId && e.target == id && !e.dotted
    ensures e.kind == Smoothstep <==> parentId == DeepLearning && IsRightBranch(id)
    ensures e.kind != Smoothstep ==> e.kind == Straight
    ensures e.animated <==> selected == Some(parentId) || selected == Some(id)
  {
    var kind := if parentId == DeepLearning && IsRightBranch(id) then Smoothstep else Straight;
    FlowEdge("e" + parentId + "-" + id, parentId, id, kind, selected == Some(parentId) || selected == Some(id), false)
  }

  function RootNode(layout: map<string, Point>, data: GraphData): FlowNode
    requires Root in layout
  {
    FlowNode(data.id, layout[Root], data.caption, RootDescription, None, Right, Left)
  }

  // ---------------------------------------------------------------------
  // createNodesAndEdges

  /** What `createNodesAndEdges(node, parentId)` pushes: nothing when the id has no position, else the
      node, its edge when `parentId` is not empty, then its children's output in order. */
  function Emitted(layout: map<string, Point>, selected: Option<string>, node: GraphData, parentId: string): Flow
    decreases node, |node.children| + 1
  {
    if node.id !in layout then Flow([], [])
    else
      var own := Flow([NodeFor(layout, node)], if parentId != "" then [EdgeFor(parentId, node.id, selected)] else []);
      Concat(own, EmittedChildren(layout, selected, node, |node.children|, node.id))
  }

  /** What the `forEach` over the first `k` children of `node` pushes. */
  function EmittedChildren(layout: map<string, Point>, selected: Option<string>, node: GraphData, k: nat, parentId: string): Flow
    requires k <= |node.children|
    decreases node, k
  {
    if k == 0 then Flow([], [])
    else Concat(EmittedChildren(layout, selected, node, k - 1, parentId),
                Emitted(layout, selected, node.children[k - 1], parentId))
  }

  /** The whole drawing: the root first, then its children's subtrees in order. */
  function BuildFlow(layout: map<string, Point>, selected: Option<string>, data: GraphData): Flow
    requires Root in layout
  {
    Concat(Flow([RootNode(layout, data)], []), EmittedChildren(layout, selected, data, |data.children|, data.id))
  }

  // ---------------------------------------------------------------------
  // Properties of the flattening

  /** Every edge `k` ends at node `k` and starts at `parent` or at a node before it. */
  predicate Follows(f: Flow, parent: string)
  {
    && |f.edges| == |f.nodes|
    && forall k :: 0 <= k < |f.edges| ==>
         && f.edges[k].target == f.nodes[k].id
         && (f.edges[k].source == parent || exists j :: 0 <= j < k && f.nodes[j].id == f.edges[k].source)
  }

  lemma FollowsConcat(a: Flow, b: Flow, parent: string)
    requires Follows(a, parent) && Follows(b, parent)
    ensures Follows(Concat(a, b), parent)
  {
    var c := Concat(a, b);
    forall k | 0 <= k < |c.edges|
      ensures c.edges[k].target == c.nodes[k].id
      ensures c.edges[k].source == parent || exists j :: 0 <= j < k && c.nodes[j].id == c.edges[k].source
    {
      if k < |a.edges| {
        assert c.edges[k] == a.edges[k] && c.nodes[k] == a.nodes[k];
        if a.edges[k].source != parent {
          var j :| 0 <= j < k && a.nodes[j].id == a.edges[k].source;
          assert c.nodes[j] == a.nodes[j];
        }
      } else {
        var kb := k - |a.edges|;
        assert c.edges[k] == b.edges[kb] && c.nodes[k] == b.nodes[kb];
        if b.edges[kb].source != parent {
          var j :| 0 <= j < kb && b.nodes[j].id == b.edges[kb].source;
          assert c.nodes[j + |a.nodes|] == b.nodes[j];
        }
      }
    }
  }

  /** Edges from an earlier node still come from an earlier node once a prefix is prepended. */
  lemma FollowsUnder(own: FlowNode, e: FlowEdge, rest: Flow)
    requires Follows(rest, own.id) && e.target == own.id
    ensures Follows(Concat(Flow([own], [e]), rest), e.source)
  {
    var c := Concat(Flow([own], [e]), rest);
    forall k | 1 <= k < |c.edges|
      ensures c.edges[k].source == e.source || exists j :: 0 <= j < k && c.nodes[j].id == c.edges[k].source
    {
      assert c.edges[k] == rest.edges[k - 1] && c.nodes[k] == rest.nodes[k - 1];
      if rest.edges[k - 1].source == own.id {
        assert c.nodes[0] == own;
      } else {
        var j :| 0 <= j < k - 1 && rest.nodes[j].id == rest.edges[k - 1].source;
        assert c.nodes[j + 1] == rest.nodes[j];
      }
    }
  }

  /** Under a non-empty parent id, each emitted node gets exactly one edge, from an already emitted node. */
  lemma {:induction false} EmittedFollows(layout: map<string, Point>, selected: Option<string>, node: GraphData, parentId: string)
    requires "" !in layout && parentId != ""
    ensures Follows(Emitted(layout, selected, node, parentId), parentId)
    decreases node, |node.children| + 1
  {
    if node.id in layout {
      EmittedChildrenFollow(layout, selected, node, |node.children|, node.id);
      FollowsUnder(NodeFor(layout, node), EdgeFor(parentId, node.id, selected),
                   EmittedChildren(layout, selected, node, |node.children|, node.id));
    }
  }

  lemma {:induction false} EmittedChildrenFollow(layout: map<string, Point>, selected: Option<string>, node: GraphData, k: nat, parentId: string)
    requires "" !in layout && parentId != "" && k <= |node.children|
    ensures Follows(EmittedChildren(layout, selected, node, k, parentId), parentId)
    decreases node, k
  {
    if k > 0 {
      EmittedChildrenFollow(layout, selected, node, k - 1, parentId);
      EmittedFollows(layout, selected, node.children[k - 1], parentId);
      FollowsConcat(EmittedChildren(layout, selected, node, k - 1, parentId),
                    Emitted(layout, selected, node.children[k - 1], parentId), parentId);
    }
  }

  /** Every node has a position in `layout` and no edge is dotted. */
  predicate Placed(f: Flow, layout: map<string, Point>)
  {
    && (forall k :: 0 <= k < |f.nodes| ==> f.nodes[k].id in layout)
    && (forall k :: 0 <= k < |f.edges| ==> !f.edges[k].dotted)
  }

  lemma PlacedConcat(a: Flow, b: Flow, layout: map<string, Point>)
    requires Placed(a, layout) && Placed(b, layout)
    ensures Placed(Concat(a, b), layout)
  {
    var c := Concat(a, b);
    assert forall k :: |a.nodes| <= k < |c.nodes| ==> c.nodes[k] == b.nodes[k - |a.nodes|];
    assert forall k :: |a.edges| <= k < |c.edges| ==> c.edges[k] == b.edges[k - |a.edges|];
  }

  /** Only nodes whose id has a position are emitted, a node comes before its subtree, and no edge is dotted. */
  lemma {:induction false} EmittedPlaced(layout: map<string, Point>, selected: Option<string>, node: GraphData, parentId: string)
    ensures Placed(Emitted(layout, selected, node, parentId), layout)
    ensures node.id !in layout ==> Emitted(layout, selected, node, parentId) == Flow([], [])
    ensures node.id in layout ==>
      var f := Emitted(layout, selected, node, parentId);
      |f.nodes| >= 1 && f.nodes[0] == NodeFor(layout, node)
    decreases node, |node.children| + 1
  {
    if node.id in layout {
      ChildrenPlaced(layout, selected, node, |node.children|, node.id);
      var own := Flow([NodeFor(layout, node)], if parentId != "" then [EdgeFor(parentId, node.id, selected)] else []);
      PlacedConcat(own, EmittedChildren(layout, selected, node, |node.children|, node.id), layout);
    }
  }

  lemma {:induction false} ChildrenPlaced(layout: map<string, Point>, selected: Option<string>, node: GraphData, k: nat, parentId: string)
    requires k <= |node.children|
    ensures Placed(EmittedChildren(layout, selected, node, k, parentId), layout)
    decreases node, k
  {
    if k > 0 {
      ChildrenPlaced(layout, selected, node, k - 1, parentId);
      EmittedPlaced(layout, selected, node.children[k - 1], parentId);
      PlacedConcat(EmittedChildren(layout, selected, node, k - 1, parentId),
                   Emitted(layout, selected, node.children[k - 1], parentId), layout);
    }
  }

  /** The drawing: root first at the root position; every other node has a position of its own and,
      under a non-empty root id, exactly one incoming edge from a node drawn before it. */
  lemma FlowIsTree(layout: map<string, Point>, selected: Option<string>, data: GraphData)
    requires Root in layout && "" !in layout
    ensures var f := BuildFlow(layout, selected, data);
      && |f.nodes| >= 1 && f.nodes[0].id == data.id && f.nodes[0].position == layout[Root]
      && (forall k :: 1 <= k < |f.nodes| ==> f.nodes[k].id in layout)
      && (forall k :: 0 <= k < |f.edges| ==> !f.edges[k].dotted)
      && (data.id != "" ==> DrawnTopDown(f))
  {
    FlowPlaced(layout, selected, data);
    if data.id != "" {
      FlowEdgesAttach(layout, selected, data);
    }
  }

  /** The root comes first at the root position, every other node has a position, and no edge is dotted. */
  lemma FlowPlaced(layout: map<string, Point>, selected: Option<string>, data: GraphData)
    requires Root in layout && "" !in layout
    ensures var f := BuildFlow(layout, selected, data);
      && |f.nodes| >= 1 && f.nodes[0].id == data.id && f.nodes[0].position == layout[Root]
      && (forall k :: 1 <= k < |f.nodes| ==> f.nodes[k].id in layout)
      && (forall k :: 0 <= k < |f.edges| ==> !f.edges[k].dotted)
  {
    var rest := EmittedChildren(layout, selected, data, |data.children|, data.id);
    var f := BuildFlow(layout, selected, data);
    ChildrenPlaced(layout, selected, data, |data.children|, data.id);
    assert f.edges == rest.edges;
    assert forall k :: 1 <= k < |f.nodes| ==> f.nodes[k] == rest.nodes[k - 1];
  }

  /** Edge `k` enters node `k + 1` and leaves a node drawn no later than node `k`: every node but the first has exactly one parent, drawn before it. */
  predicate DrawnTopDown(f: Flow)
  {
    && |f.edges| == |f.nodes| - 1
    && forall k :: 0 <= k < |f.edges| ==>
         f.edges[k].target == f.nodes[k + 1].id &&
         exists j :: 0 <= j <= k && f.nodes[j].id == f.edges[k].source
  }

  /** Under a non-empty root id, edge `k` enters node `k + 1` from a node drawn before it. */
  lemma FlowEdgesAttach(layout: map<string, Point>, selected: Option<string>, data: GraphData)
    requires Root in layout && "" !in layout && data.id != ""
    ensures DrawnTopDown(BuildFlow(layout, selected, data))
  {
    EmittedChildrenFollow(layout, selected, data, |data.children|, data.id);
    RootedAttach(RootNode(layout, data), EmittedChildren(layout, selected, data, |data.children|, data.id));
  }

  /** A root without an edge, followed by a flow hanging from it, is a tree drawn top-down. */
  lemma RootedAttach(root: FlowNode, rest: Flow)
    requires Follows(rest, root.id)
    ensures DrawnTopDown(Concat(Flow([root], []), rest))
  {
    var f := Concat(Flow([root], []), rest);
    assert f.edges == rest.edges;
    forall k | 0 <= k < |f.edges|
      ensures f.edges[k].target == f.nodes[k + 1].id
      ensures exists j :: 0 <= j <= k && f.nodes[j].id == f.edges[k].source
    {
      RootedAttachAt(root, rest, k);
    }
  }

  lemma RootedAttachAt(root: FlowNode, rest: Flow, k: nat)
    requires Follows(rest, root.id) && k < |rest.edges|
    ensures var f := Concat(Flow([root], []), rest);
      && f.edges[k].target == f.nodes[k + 1].id
      && exists j :: 0 <= j <= k && f.nodes[j].id == f.edges[k].source
  {
    var f := Concat(Flow([root], []), rest);
    assert f.edges[k] == rest.edges[k] && f.nodes[k + 1] == rest.nodes[k];
    if rest.edges[k].source == root.id {
      assert f.nodes[0] == root;
    } else {
      var j :| 0 <= j < k && rest.nodes[j].id == rest.edges[k].source;
      assert f.nodes[j + 1] == rest.nodes[j];
    }
  }

  /** A child without a position is dropped together with its whole subtree. */
  lemma SkippedSubtree(layout: map<string, Point>, selected: Option<string>, child: GraphData, parentId: string)
    requires child.id !in layout
    ensures Emitted(layout, selected, child, parentId) == Flow([], [])
  {
  }

  // ---------------------------------------------------------------------
  // The imperative flattening

  /** The closure of the first effect: the arrays `flowNodes` and `flowEdges` it pushes onto. */
  class FlowBuilder {
    const layout: map<string, Point>
    const selected: Option<string>
    var flowNodes: seq<FlowNode>
    var flowEdges: seq<FlowEdge>

    constructor (layout: map<string, Point>, selected: Option<string>)
      ensures this.layout == layout && this.selected == selected
      ensures flowNodes == [] && flowEdges == []
    {
      this.layout := layout;
      this.selected := selected;
      flowNodes := [];
      flowEdges := [];
    }

    /** The node record, with its connection points set by the if-chain on its id. */
    static method MakeFlowNode(layout: map<string, Point>, node: GraphData) returns (flowNode: FlowNode)
      requires node.id in layout
      ensures flowNode == NodeFor(layout, node)
    {
      var id := node.id;
      flowNode := FlowNode(id, layout[id], node.caption, OrElse(node.description, ""), node.category, Right, Left);
      if id == Tools {
        flowNode := flowNode.(sourcePosition := Top, targetPosition := Top);
      } else if Contains(id, "nlp") || Contains(id, "computer-vision") ||
                Contains(id, "reinforcement-learning") || Contains(id, "generative-ai") {
        flowNode := flowNode.(targetPosition := Left);
      } else if id == DeepLearning {
        flowNode := flowNode.(sourcePosition := Right, targetPosition := Left);
      } else {
        flowNode := flowNode.(sourcePosition := Right, targetPosition := Left);
      }
    }

    /** `flowNodes.push(rootNode)`: the root, at the root position, whatever its id. */
    method PushRoot(data: GraphData)
      requires Root in layout
      modifies this
      ensures flowNodes == old(flowNodes) + [RootNode(layout, data)] && flowEdges == old(flowEdges)
    {
      flowNodes := flowNodes + [FlowNode(data.id, layout[Root], data.caption, RootDescription, None, Right, Left)];
    }

    /** `createNodesAndEdges`: pushes the node, its edge and, recursively, its children. */
    method CreateNodesAndEdges(node: GraphData, parentId: string)
      modifies this
      ensures flowNodes == old(flowNodes) + Emitted(layout, selected, node, parentId).nodes
      ensures flowEdges == old(flowEdges) + Emitted(layout, selected, node, parentId).edges
      decreases node, 1
    {
      if node.id in layout {
        PushNodeAndEdge(node, parentId);
        ghost var mid := Flow(flowNodes, flowEdges);
        CreateChildren(node);
        ghost var own := Flow([NodeFor(layout, node)], if parentId != "" then [EdgeFor(parentId, node.id, selected)] else []);
        ghost var rest := EmittedChildren(layout, selected, node, |node.children|, node.id);
        assert Emitted(layout, selected, node, parentId) == Concat(own, rest);
        assert flowNodes == old(flowNodes) + (own.nodes + rest.nodes);
        assert flowEdges == old(flowEdges) + (own.edges + rest.edges);
      }
    }

    /** The node itself and, under a non-empty parent id, the edge that leads to it. */
    method PushNodeAndEdge(node: GraphData, parentId: string)
      requires node.id in layout
      modifies this
      ensures flowNodes == old(flowNodes) + [NodeFor(layout, node)]
      ensures flowEdges == old(flowEdges) + (if parentId != "" then [EdgeFor(parentId, node.id, selected)] else [])
    {
      var id := node.id;
      var flowNode := MakeFlowNode(layout, node);
      flowNodes := flowNodes + [flowNode];
      if parentId != "" {
        var edgeType := Straight;
        if parentId == DeepLearning && IsRightBranch(id) {
          edgeType := Smoothstep;
        }
        flowEdges := flowEdges + [FlowEdge("e" + parentId + "-" + id, parentId, id, edgeType,
                                           selected == Some(parentId) || selected == Some(id), false)];
      }
    }

    /** `node.children.forEach(child => createNodesAndEdges(child, id))` */
    method CreateChildren(node: GraphData)
      modifies this
      ensures flowNodes == old(flowNodes) + EmittedChildren(layout, selected, node, |node.children|, node.id).nodes
      ensures flowEdges == old(flowEdges) + EmittedChildren(layout, selected, node, |node.children|, node.id).edges
      decreases node, 0
    {
      var i := 0;
      while i < |node.children|
        invariant 0 <= i <= |node.children|
        invariant flowNodes == old(flowNodes) + EmittedChildren(layout, selected, node, i, node.id).nodes
        invariant flowEdges == old(flowEdges) + EmittedChildren(layout, selected, node, i, node.id).edges
      {
        ghost var before := EmittedChildren(layout, selected, node, i, node.id);
        ghost var child := Emitted(layout, selected, node.children[i], node.id);
        assert EmittedChildren(layout, selected, node, i + 1, node.id) == Concat(before, child);
        CreateNodesAndEdges(node.children[i], node.id);
        assert flowNodes == old(flowNodes) + (before.nodes + child.nodes);
        assert flowEdges == old(flowEdges) + (before.edges + child.edges);
        i := i + 1;
      }
    }
  }

  // ---------------------------------------------------------------------
  // The component's state

  predicate IsDotted(e: FlowEdge)
  {
    e.dotted
  }

  /** The number of dotted edges. */
  function DottedCount(edges: seq<FlowEdge>): (n: nat)
    ensures n <= |edges|
    ensures n == 0 <==> forall k :: 0 <= k < |edges| ==> !edges[k].dotted
  {
    if edges == [] then 0 else (if edges[0].dotted then 1 else 0) + DottedCount(edges[1..])
  }

  lemma {:induction false} DottedCountAppend(a: seq<FlowEdge>, b: seq<FlowEdge>)
    ensures DottedCount(a + b) == DottedCount(a) + DottedCount(b)
  {
    if a == [] {
      assert a + b == b;
    } else {
      assert (a + b)[1..] == a[1..] + b;
      DottedCountAppend(a[1..], b);
    }
  }

  /** `nodes.find(node => node.id === id)` finds something. */
  predicate HasNode(nodes: seq<FlowNode>, id: string)
  {
    exists k :: 0 <= k < |nodes| && nodes[k].id == id
  }

  /** The dashed foundations-to-tools edge of the second effect. */
  const DottedEdge: FlowEdge := FlowEdge("e-foundations-tools", Foundations, Tools, Step, false, true)

  /** `nodes`, `edges` and `selectedNode` are React state; `dottedEdgeAdded` is `dottedEdgeAddedRef.current`. */
  class PathGraphView {
    var nodes: seq<FlowNode>
    var edges: seq<FlowEdge>
    var selectedNode: Option<string>
    var dottedEdgeAdded: bool

    /** The ref flag is set exactly when the one dotted edge has been drawn, and only between two existing nodes. */
    ghost predicate Valid()
      reads this
    {
      && DottedCount(edges) <= 1
      && (dottedEdgeAdded <==> DottedCount(edges) == 1)
      && (dottedEdgeAdded ==> HasNode(nodes, Foundations) && HasNode(nodes, Tools))
    }

    constructor ()
      ensures Valid() && nodes == [] && edges == [] && selectedNode.None?
    {
      nodes := [];
      edges := [];
      selectedNode := None;
      dottedEdgeAdded := false;
    }

    /** The first effect: rebuild the drawing for `data` and reset the ref flag. */
    method Load(data: GraphData)
      modifies this
      ensures Valid()
      ensures Flow(nodes, edges) == BuildFlow(LayoutMap, old(selectedNode), data)
      ensures !dottedEdgeAdded && selectedNode == old(selectedNode)
    {
      LayoutMapFacts();
      var builder := new FlowBuilder(LayoutMap, selectedNode);
      builder.PushRoot(data);
      builder.CreateChildren(data);
      nodes := builder.flowNodes;
      edges := builder.flowEdges;
      dottedEdgeAdded := false;
      FlowIsTree(LayoutMap, selectedNode, data);
    }

    /** The second effect: once nodes are drawn, add the dotted edge if it is not there yet and both ends exist. */
    method AddDottedEdge()
      requires Valid()
      modifies this
      ensures Valid()
      ensures nodes == old(nodes) && selectedNode == old(selectedNode)
      ensures var adds := |old(nodes)| > 0 && !old(dottedEdgeAdded) && HasNode(nodes, Foundations) && HasNode(nodes, Tools);
        && edges == old(edges) + (if adds then [DottedEdge] else [])
        && dottedEdgeAdded == (old(dottedEdgeAdded) || adds)
    {
      if |nodes| > 0 && !dottedEdgeAdded {
        if HasNode(nodes, Foundations) && HasNode(nodes, Tools) {
          DottedCountAppend(edges, [DottedEdge]);
          edges := edges + [DottedEdge];
          dottedEdgeAdded := true;
        }
      }
    }

    /** `onNodeClick`: select the node; a node with a non-empty category navigates to its tutorials. */
    method NodeClick(node: FlowNode) returns (navigateTo: Option<string>)
      modifies this
      ensures selectedNode == Some(node.id)
      ensures nodes == old(nodes) && edges == old(edges) && dottedEdgeAdded == old(dottedEdgeAdded)
      ensures navigateTo.Some? <==> node.category.Some? && node.category.value != ""
      ensures navigateTo.Some? ==> navigateTo.value == "/tutorials?category=" + node.category.value
    {
      selectedNode := Some(node.id);
      navigateTo := None;
      if node.category.Some? && node.category.value != "" {
        navigateTo := Some("/tutorials?category=" + node.category.value);
      }
    }

    /** `onPaneClick`: clear the selection. */
    method PaneClick()
      modifies this
      ensures selectedNode.None?
      ensures nodes == old(nodes) && edges == old(edges) && dottedEdgeAdded == old(dottedEdgeAdded)
    {
      selectedNode := None;
    }
  }

  /** However often the second effect runs after a load, at most one dotted edge is drawn. */
  lemma AtMostOneDottedEdge(edges: seq<FlowEdge>, dottedEdgeAdded: bool, nodes: seq<FlowNode>)
    requires DottedCount(edges) <= 1 && (dottedEdgeAdded <==> DottedCount(edges) == 1)
    ensures var adds := |nodes| > 0 && !dottedEdgeAdded && HasNode(nodes, Foundations) && HasNode(nodes, Tools);
      DottedCount(edges + (if adds then [DottedEdge] else [])) <= 1
  {
    DottedCountAppend(edges, [DottedEdge]);
    assert DottedCount([DottedEdge]) == 1;
    assert edges + [] == edges;
  }
}
