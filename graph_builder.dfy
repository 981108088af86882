/** The graph builder (backend/core/graph_builder.py): the generator's node
    and edge records go into a directed graph with networkx's semantics, and
    the graph is converted to the dense tensors the GNN reads. */
module Graph {
  import opened Schema
  import opened PySeq

  // ---------------------------------------------------------------------
  // A networkx DiGraph, as a value

  /** The nodes in insertion order with their attribute dictionaries, and
      the edges in insertion order with theirs. Iterating `edges()` visits
      the sources in node order and, per source, the targets in insertion
      order (EdgeList below). */
  datatype DiGraph = DiGraph(
    order: seq<int>,
    nodeAttrs: map<int, Attrs>,
    pairs: seq<(int, int)>,
    edgeAttrs: map<(int, int), Attrs>)

  const EmptyGraph := DiGraph([], map[], [], map[])

  predicate Distinct<T(==)>(s: seq<T>) {
    forall i, j :: 0 <= i < j < |s| ==> s[i] != s[j]
  }

  /** The shape every graph networkx builds has: each node and each edge
      once, attributes for exactly those, and both endpoints of every edge
      among the nodes. */
  ghost predicate Wf(g: DiGraph) {
    && Distinct(g.order)
    && (forall n :: n in g.nodeAttrs ==> n in g.order)
    && (forall i :: 0 <= i < |g.order| ==> g.order[i] in g.nodeAttrs)
    && Distinct(g.pairs)
    && (forall p :: p in g.edgeAttrs <==> p in g.pairs)
    && (forall k :: 0 <= k < |g.pairs| ==> g.pairs[k].0 in g.nodeAttrs && g.pairs[k].1 in g.nodeAttrs)
  }

  /** `add_node(n, **attrs)`: a new node is appended; an existing one keeps
      its place and has its dictionary updated. */
  function AddNode(g: DiGraph, n: int, attrs: Attrs): (r: DiGraph)
    ensures n in r.nodeAttrs && r.pairs == g.pairs && r.edgeAttrs == g.edgeAttrs
    ensures n in g.nodeAttrs ==> r.order == g.order && r.nodeAttrs == g.nodeAttrs[n := g.nodeAttrs[n] + attrs]
    ensures n !in g.nodeAttrs ==> r.order == g.order + [n] && r.nodeAttrs == g.nodeAttrs[n := attrs]
  {
    if n in g.nodeAttrs then g.(nodeAttrs := g.nodeAttrs[n := g.nodeAttrs[n] + attrs])
    else g.(order := g.order + [n], nodeAttrs := g.nodeAttrs[n := attrs])
  }

  /** A node `add_edge` creates for a missing endpoint: no attributes. */
  function EnsureNode(g: DiGraph, n: int): (r: DiGraph)
    ensures n in g.nodeAttrs ==> r == g
    ensures n !in g.nodeAttrs ==> r == AddNode(g, n, map[])
  {
    if n in g.nodeAttrs then g else AddNode(g, n, map[])
  }

  /** `add_edge(u, v, **attrs)`: missing endpoints are added with no
      attributes; a new edge is appended, an existing one has its dictionary
      updated. */
  function AddEdge(g: DiGraph, u: int, v: int, attrs: Attrs): (r: DiGraph)
    ensures (u, v) in r.edgeAttrs && u in r.nodeAttrs && v in r.nodeAttrs
  {
    var h := EnsureNode(EnsureNode(g, u), v);
    if (u, v) in h.edgeAttrs then h.(edgeAttrs := h.edgeAttrs[(u, v) := h.edgeAttrs[(u, v)] + attrs])
    else h.(pairs := h.pairs + [(u, v)], edgeAttrs := h.edgeAttrs[(u, v) := attrs])
  }

  lemma AddNodeWf(g: DiGraph, n: int, attrs: Attrs)
    requires Wf(g)
    ensures Wf(AddNode(g, n, attrs))
  {
  }

  lemma EnsureNodeWf(g: DiGraph, n: int)
    requires Wf(g)
    ensures Wf(EnsureNode(g, n))
    ensures EnsureNode(g, n).nodeAttrs.Keys == g.nodeAttrs.Keys + {n}
    ensures EnsureNode(g, n).pairs == g.pairs && EnsureNode(g, n).edgeAttrs == g.edgeAttrs
  {
    AddNodeWf(g, n, map[]);
  }

  /** A new edge between existing nodes keeps the graph well formed. */
  lemma AppendEdgeWf(h: DiGraph, u: int, v: int, attrs: Attrs)
    requires Wf(h) && u in h.nodeAttrs && v in h.nodeAttrs && (u, v) !in h.edgeAttrs
    ensures Wf(h.(pairs := h.pairs + [(u, v)], edgeAttrs := h.edgeAttrs[(u, v) := attrs]))
  {
    var r := h.(pairs := h.pairs + [(u, v)], edgeAttrs := h.edgeAttrs[(u, v) := attrs]);
    assert (u, v) !in h.pairs;
    forall k | 0 <= k < |r.pairs| ensures r.pairs[k].0 in r.nodeAttrs && r.pairs[k].1 in r.nodeAttrs {
      if k < |h.pairs| {
        assert r.pairs[k] == h.pairs[k];
      }
    }
  }

  lemma AddEdgeWf(g: DiGraph, u: int, v: int, attrs: Attrs)
    requires Wf(g)
    ensures Wf(AddEdge(g, u, v, attrs))
    ensures AddEdge(g, u, v, attrs).nodeAttrs.Keys == g.nodeAttrs.Keys + {u, v}
  {
    EnsureNodeWf(g, u);
    var h := EnsureNode(EnsureNode(g, u), v);
    EnsureNodeWf(EnsureNode(g, u), v);
    if (u, v) !in h.edgeAttrs {
      AppendEdgeWf(h, u, v, attrs);
    }
  }

  /** The attributes the source passes for a node: `node_type` and the
      feature dictionary. */
  function NodeAttrsOf(spec: NodeSpec): (a: Attrs)
    ensures a.Keys == spec.features.Keys + {"node_type"}
    ensures a["node_type"] == Text(spec.nodeType)
    ensures forall k :: k in spec.features && k != "node_type" ==> a[k] == Num(spec.features[k])
  {
    (map k | k in spec.features :: Num(spec.features[k]))["node_type" := Text(spec.nodeType)]
  }

  /** `node_type=...` beside `**features` is a duplicate keyword argument
      (TypeError) when the features already hold that key. */
  predicate NoTypeClash(nodes: seq<NodeSpec>) {
    forall i :: 0 <= i < |nodes| ==> "node_type" !in nodes[i].features
  }

  /** The graph after adding the nodes one by one. */
  function AddNodes(g: DiGraph, nodes: seq<NodeSpec>): DiGraph
    decreases |nodes|
  {
    if nodes == [] then g
    else
      var last := nodes[|nodes| - 1];
      AddNode(AddNodes(g, nodes[..|nodes| - 1]), last.id, NodeAttrsOf(last))
  }

  /** The graph after adding the edges one by one. */
  function AddEdges(g: DiGraph, edges: seq<EdgeSpec>): DiGraph
    decreases |edges|
  {
    if edges == [] then g
    else
      var last := edges[|edges| - 1];
      AddEdge(AddEdges(g, edges[..|edges| - 1]), last.source, last.target, last.attrs)
  }

  /** What build_from_synthetic_data leaves in the graph. */
  function Build(nodes: seq<NodeSpec>, edges: seq<EdgeSpec>): (g: DiGraph)
    ensures Wf(g)
  {
    AddNodesWf(nodes);
    AddEdgesWf(AddNodes(EmptyGraph, nodes), edges);
    AddEdges(AddNodes(EmptyGraph, nodes), edges)
  }

  /** The ids the node records carry. */
  function Ids(nodes: seq<NodeSpec>): set<int>
    decreases |nodes|
  {
    if nodes == [] then {} else Ids(nodes[..|nodes| - 1]) + {nodes[|nodes| - 1].id}
  }

  /** The endpoints the edge records name. */
  function Ends(edges: seq<EdgeSpec>): set<int>
    decreases |edges|
  {
    if edges == [] then {} else Ends(edges[..|edges| - 1]) + {edges[|edges| - 1].source, edges[|edges| - 1].target}
  }

  lemma {:induction false} AddNodesWf(nodes: seq<NodeSpec>)
    ensures Wf(AddNodes(EmptyGraph, nodes))
    ensures AddNodes(EmptyGraph, nodes).nodeAttrs.Keys == Ids(nodes)
    ensures AddNodes(EmptyGraph, nodes).pairs == []
    decreases |nodes|
  {
    if nodes != [] {
      var front := nodes[..|nodes| - 1];
      AddNodesWf(front);
      AddNodeWf(AddNodes(EmptyGraph, front), nodes[|nodes| - 1].id, NodeAttrsOf(nodes[|nodes| - 1]));
    }
  }

  lemma {:induction false} AddEdgesWf(g: DiGraph, edges: seq<EdgeSpec>)
    requires Wf(g)
    ensures Wf(AddEdges(g, edges))
    ensures AddEdges(g, edges).nodeAttrs.Keys == g.nodeAttrs.Keys + Ends(edges)
    decreases |edges|
  {
    if edges != [] {
      var front, last := edges[..|edges| - 1], edges[|edges| - 1];
      AddEdgesWf(g, front);
      AddEdgeWf(AddEdges(g, front), last.source, last.target, last.attrs);
    }
  }

  /** The built graph is well formed, and its nodes are the listed nodes
      plus any edge endpoint the list misses. */
  lemma BuildWf(nodes: seq<NodeSpec>, edges: seq<EdgeSpec>)
    ensures Wf(Build(nodes, edges))
    ensures Build(nodes, edges).nodeAttrs.Keys == Ids(nodes) + Ends(edges)
  {
    AddNodesWf(nodes);
    AddEdgesWf(AddNodes(EmptyGraph, nodes), edges);
  }

  /** Adding a record whose id is new to a graph holding earlier records
      in order appends it, with exactly its own attributes. */
  lemma FreshNodeStep(g: DiGraph, front: seq<NodeSpec>, last: NodeSpec)
    requires Wf(g) && |g.order| == |front|
    requires forall i :: 0 <= i < |front| ==>
      g.order[i] == front[i].id && front[i].id in g.nodeAttrs && g.nodeAttrs[front[i].id] == NodeAttrsOf(front[i])
    requires forall i :: 0 <= i < |front| ==> front[i].id != last.id
    ensures var r, nodes := AddNode(g, last.id, NodeAttrsOf(last)), front + [last];
      && |r.order| == |nodes|
      && (forall i :: 0 <= i < |nodes| ==> r.order[i] == nodes[i].id)
      && (forall i :: 0 <= i < |nodes| ==>
            nodes[i].id in r.nodeAttrs && r.nodeAttrs[nodes[i].id] == NodeAttrsOf(nodes[i]))
  {
    assert last.id !in g.order;
    var r, nodes := AddNode(g, last.id, NodeAttrsOf(last)), front + [last];
    assert r.order == g.order + [last.id] && r.nodeAttrs == g.nodeAttrs[last.id := NodeAttrsOf(last)];
    forall i | 0 <= i < |front|
      ensures r.order[i] == nodes[i].id && nodes[i].id in r.nodeAttrs && r.nodeAttrs[nodes[i].id] == NodeAttrsOf(nodes[i])
    {
      assert nodes[i] == front[i];
    }
    assert nodes[|front|] == last;
  }

  /** Records with distinct ids become the graph's nodes in list order,
      each with exactly the attributes its record gives. */
  lemma {:induction false} AddNodesFresh(nodes: seq<NodeSpec>)
    requires forall i, j :: 0 <= i < j < |nodes| ==> nodes[i].id != nodes[j].id
    ensures var g := AddNodes(EmptyGraph, nodes);
      && |g.order| == |nodes|
      && (forall i :: 0 <= i < |nodes| ==> g.order[i] == nodes[i].id)
      && (forall i :: 0 <= i < |nodes| ==>
            nodes[i].id in g.nodeAttrs && g.nodeAttrs[nodes[i].id] == NodeAttrsOf(nodes[i]))
    decreases |nodes|
  {
    if nodes != [] {
      var front, last := nodes[..|nodes| - 1], nodes[|nodes| - 1];
      assert nodes == front + [last];
      AddNodesFresh(front);
      AddNodesWf(front);
      forall i | 0 <= i < |front| ensures front[i].id != last.id {
        assert front[i] == nodes[i];
      }
      FreshNodeStep(AddNodes(EmptyGraph, front), front, last);
    }
  }

  /** Edges between existing nodes with distinct (source, target) pairs are
      stored in list order, each with exactly the attributes its record
      gives; the nodes are untouched. */
  lemma {:induction false} AddEdgesFresh(g: DiGraph, edges: seq<EdgeSpec>)
    requires g.pairs == [] && g.edgeAttrs == map[]
    requires forall k :: 0 <= k < |edges| ==> edges[k].source in g.nodeAttrs && edges[k].target in g.nodeAttrs
    requires forall k, k' :: 0 <= k < k' < |edges| ==>
      (edges[k].source, edges[k].target) != (edges[k'].source, edges[k'].target)
    ensures var r := AddEdges(g, edges);
      && r.order == g.order && r.nodeAttrs == g.nodeAttrs
      && StoredInOrder(r, edges)
    decreases |edges|
  {
    if edges != [] {
      var front, last := edges[..|edges| - 1], edges[|edges| - 1];
      assert edges == front + [last];
      AddEdgesFresh(g, front);
      forall k | 0 <= k < |front| ensures (front[k].source, front[k].target) != (last.source, last.target) {
        assert front[k] == edges[k];
      }
      FreshEdgeStep(AddEdges(g, front), front, last);
    }
  }

  /** The graph's edges are the records' in list order, each with exactly
      the attributes its record gives. */
  ghost predicate StoredInOrder(r: DiGraph, edges: seq<EdgeSpec>) {
    && |r.pairs| == |edges|
    && (forall p :: p in r.edgeAttrs <==> p in r.pairs)
    && (forall k :: 0 <= k < |edges| ==> r.pairs[k] == (edges[k].source, edges[k].target))
    && (forall k :: 0 <= k < |edges| ==> r.pairs[k] in r.edgeAttrs && r.edgeAttrs[r.pairs[k]] == edges[k].attrs)
  }

  /** Adding a record whose endpoint pair is new to a graph holding earlier
      records in order appends it, with exactly its own attributes. */
  lemma FreshEdgeStep(h: DiGraph, front: seq<EdgeSpec>, last: EdgeSpec)
    requires StoredInOrder(h, front)
    requires forall k :: 0 <= k < |front| ==> (front[k].source, front[k].target) != (last.source, last.target)
    requires last.source in h.nodeAttrs && last.target in h.nodeAttrs
    ensures var r := AddEdge(h, last.source, last.target, last.attrs);
      && r.order == h.order && r.nodeAttrs == h.nodeAttrs
      && StoredInOrder(r, front + [last])
  {
    var pair := (last.source, last.target);
    assert pair !in h.pairs by {
      forall k | 0 <= k < |front| ensures h.pairs[k] != pair {
      }
    }
    AddEdgeFresh(h, last.source, last.target, last.attrs);
    var r, edges := AddEdge(h, last.source, last.target, last.attrs), front + [last];
    forall k | 0 <= k < |front|
      ensures r.pairs[k] == (edges[k].source, edges[k].target)
      ensures r.pairs[k] in r.edgeAttrs && r.edgeAttrs[r.pairs[k]] == edges[k].attrs
    {
      assert edges[k] == front[k];
      assert h.pairs[k] != pair;
    }
    assert edges[|front|] == last;
  }

  /** A new edge between existing nodes is appended with exactly its own
      attributes. */
  lemma AddEdgeFresh(h: DiGraph, u: int, v: int, attrs: Attrs)
    requires u in h.nodeAttrs && v in h.nodeAttrs && (u, v) !in h.edgeAttrs
    ensures var r := AddEdge(h, u, v, attrs);
      && r.order == h.order && r.nodeAttrs == h.nodeAttrs
      && r.pairs == h.pairs + [(u, v)] && r.edgeAttrs == h.edgeAttrs[(u, v) := attrs]
  {
  }

  /** A record whose type is one of NODE_TYPE_MAP's converts: its type is
      known, and its features are numbers. */
  lemma NodeAttrsOk(spec: NodeSpec)
    requires spec.nodeType in NodeTypeMap
    ensures NodeOk(NodeAttrsOf(spec))
    ensures RowPrefix(NodeAttrsOf(spec), NumFeatures).Some?
    ensures |RowPrefix(NodeAttrsOf(spec), NumFeatures).value| == NumFeatures
    ensures forall j :: 0 <= j < NumFeatures && FeatureKeys[j] in spec.features ==>
      RowPrefix(NodeAttrsOf(spec), NumFeatures).value[j] == spec.features[FeatureKeys[j]]
  {
    var a := NodeAttrsOf(spec);
    SchemaShape();
    RowPrefixIs(a, NumFeatures);
  }

  // ---------------------------------------------------------------------
  // Edge iteration order

  /** The edges out of u, in insertion order. */
  function OutEdges(pairs: seq<(int, int)>, u: int): (r: seq<(int, int)>)
    ensures forall p :: p in r ==> p in pairs && p.0 == u
    decreases |pairs|
  {
    if pairs == [] then []
    else if pairs[0].0 == u then [pairs[0]] + OutEdges(pairs[1..], u)
    else OutEdges(pairs[1..], u)
  }

  /** The edges out of the first k nodes, source by source. */
  function EdgesFromNodes(order: seq<int>, pairs: seq<(int, int)>, k: nat): (r: seq<(int, int)>)
    requires k <= |order|
    ensures forall p :: p in r ==> p in pairs
  {
    if k == 0 then [] else EdgesFromNodes(order, pairs, k - 1) + OutEdges(pairs, order[k - 1])
  }

  /** `G.edges()`: every source in node order, each with its targets. */
  function EdgeList(g: DiGraph): (r: seq<(int, int)>)
    ensures forall p :: p in r ==> p in g.pairs
  {
    EdgesFromNodes(g.order, g.pairs, |g.order|)
  }

  lemma {:induction false} OutEdgesAre(pairs: seq<(int, int)>, u: int)
    ensures forall p :: p in OutEdges(pairs, u) <==> p in pairs && p.0 == u
    ensures Distinct(pairs) ==> Distinct(OutEdges(pairs, u))
    decreases |pairs|
  {
    if pairs != [] {
      OutEdgesAre(pairs[1..], u);
      assert forall p :: p in pairs <==> p == pairs[0] || p in pairs[1..];
      if Distinct(pairs) {
        assert Distinct(pairs[1..]);
        assert pairs[0] !in pairs[1..];
      }
    }
  }

  lemma DistinctAppend<T>(a: seq<T>, b: seq<T>)
    requires Distinct(a) && Distinct(b)
    requires forall x :: x in a ==> x !in b
    ensures Distinct(a + b)
  {
    forall i, j | 0 <= i < j < |a + b| ensures (a + b)[i] != (a + b)[j] {
      if i < |a| && |a| <= j {
        assert (a + b)[i] in a && (a + b)[j] in b;
      }
    }
  }

  lemma {:induction false} EdgesFromNodesAre(order: seq<int>, pairs: seq<(int, int)>, k: nat)
    requires k <= |order| && Distinct(order) && Distinct(pairs)
    ensures forall p :: p in EdgesFromNodes(order, pairs, k) <==> p in pairs && p.0 in order[..k]
    ensures Distinct(EdgesFromNodes(order, pairs, k))
  {
    if k > 0 {
      EdgesFromNodesAre(order, pairs, k - 1);
      OutEdgesAre(pairs, order[k - 1]);
      assert order[..k] == order[..k - 1] + [order[k - 1]];
      assert order[k - 1] !in order[..k - 1];
      DistinctAppend(EdgesFromNodes(order, pairs, k - 1), OutEdges(pairs, order[k - 1]));
    }
  }

  /** A list without repeats has as many elements as its set. */
  lemma {:induction false} DistinctCard<T>(s: seq<T>)
    requires Distinct(s)
    ensures |set x | x in s| == |s|
    decreases |s|
  {
    if s != [] {
      var front := s[..|s| - 1];
      DistinctCard(front);
      assert (set x | x in s) == (set x | x in front) + {s[|s| - 1]};
      assert s[|s| - 1] !in front;
    }
  }

  /** `G.edges()` lists every edge of the graph exactly once. */
  lemma EdgeListPermutes(g: DiGraph)
    requires Wf(g)
    ensures Distinct(EdgeList(g)) && |EdgeList(g)| == |g.pairs|
    ensures forall p :: p in EdgeList(g) <==> p in g.pairs
  {
    EdgesFromNodesAre(g.order, g.pairs, |g.order|);
    assert g.order[..|g.order|] == g.order;
    forall p | p in g.pairs ensures p in EdgeList(g) {
      var k :| 0 <= k < |g.pairs| && g.pairs[k] == p;
      assert p.0 in g.nodeAttrs;
      assert forall n :: n in g.nodeAttrs <==> n in g.order;
      assert p.0 in g.order;
      assert g.order[..|g.order|] == g.order;
    }
    assert (set x | x in EdgeList(g)) == (set x | x in g.pairs);
    DistinctCard(EdgeList(g));
    DistinctCard(g.pairs);
  }

  // ---------------------------------------------------------------------
  // Conversion to dense tensors

  /** ValueError on an empty graph, KeyError on an unknown or missing type,
      and the error torch raises when a tensor entry is not a number. */
  datatype GraphError = EmptyGraphError | KeyError | NotANumber

  datatype Result<T> = Success(value: T) | Failure(error: GraphError)

  /** The tensors of a PyG `Data` object: `x` is N x 6, `edgeIndex` holds
      the columns of the 2 x E index tensor, `edgeAttr` the E x 1 weights. */
  datatype PygData = PygData(
    x: Matrix,
    edgeIndex: seq<(nat, nat)>,
    edgeAttr: seq<real>,
    nodeType: seq<nat>,
    edgeType: seq<nat>)

  /** `{n: i for i, n in enumerate(G.nodes())}`. */
  function NodeMapping(order: seq<int>): (m: map<int, nat>)
    requires Distinct(order)
    ensures forall n :: n in m <==> n in order
    ensures forall n :: n in m ==> m[n] < |order|
  {
    map i | 0 <= i < |order| :: order[i] := i
  }

  /** The mapping is a bijection from the node ids onto 0 .. N-1 that
      numbers the nodes in insertion order. */
  lemma NodeMappingNumbers(order: seq<int>)
    requires Distinct(order)
    ensures forall n :: n in NodeMapping(order) <==> n in order
    ensures forall i :: 0 <= i < |order| ==> NodeMapping(order)[order[i]] == i
    ensures forall n :: n in NodeMapping(order) ==> NodeMapping(order)[n] < |order|
  {
    var m := NodeMapping(order);
    forall n | n in order ensures n in m {
      var i :| 0 <= i < |order| && order[i] == n;
    }
  }

  /** `NODE_TYPE_MAP[data['node_type']]`; None is the KeyError. */
  function NodeTypeCode(a: Attrs): Option<nat> {
    if "node_type" in a && a["node_type"].Text? && a["node_type"].text in NodeTypeMap
    then Some(NodeTypeMap[a["node_type"].text])
    else None
  }

  /** `data.get(key, 0.0)` stored into a float tensor; None when the value
      is not a number. */
  function FeatureValue(a: Attrs, key: string): Option<real> {
    if key !in a then Some(0.0)
    else if a[key].Num? then Some(a[key].num)
    else None
  }

  /** The first n columns of a node's feature row. */
  function RowPrefix(a: Attrs, n: nat): Option<Row>
    requires n <= NumFeatures
  {
    if n == 0 then Some([])
    else match RowPrefix(a, n - 1)
      case None => None
      case Some(row) =>
        match FeatureValue(a, FeatureKeys[n - 1])
        case None => None
        case Some(v) => Some(row + [v])
  }

  /** One node's type code and feature row, or the error its conversion
      raises (the type lookup comes first). */
  function NodeEntry(a: Attrs): Result<(nat, Row)> {
    match NodeTypeCode(a)
    case None => Failure(KeyError)
    case Some(t) =>
      match RowPrefix(a, NumFeatures)
      case None => Failure(NotANumber)
      case Some(row) => Success((t, row))
  }

  /** The node types and feature rows of the first k nodes in node order,
      or the first error. */
  function NodeTable(g: DiGraph, k: nat): Result<(seq<nat>, Matrix)>
    requires Wf(g) && k <= |g.order|
  {
    if k == 0 then Success(([], []))
    else match NodeTable(g, k - 1)
      case Failure(e) => Failure(e)
      case Success(table) =>
        match NodeEntry(g.nodeAttrs[g.order[k - 1]])
        case Failure(e) => Failure(e)
        case Success(entry) => Success((table.0 + [entry.0], table.1 + [entry.1]))
  }

  /** `EDGE_TYPE_MAP[data['type']]`; None is the KeyError. */
  function EdgeTypeCode(a: Attrs): Option<nat> {
    if "type" in a && a["type"].Text? && a["type"].text in EdgeTypeMap
    then Some(EdgeTypeMap[a["type"].text])
    else None
  }

  /** `data.get('capacity', data.get('volume', 1.0))`. */
  function Weight(a: Attrs): (w: Value)
    ensures "capacity" in a ==> w == a["capacity"]
    ensures "capacity" !in a && "volume" in a ==> w == a["volume"]
    ensures w in a.Values || ("capacity" !in a && "volume" !in a && w == Num(1.0))
  {
    if "capacity" in a then a["capacity"]
    else if "volume" in a then a["volume"]
    else Num(1.0)
  }

  /** `G.edges(data=True)`: each edge with its attribute dictionary, in
      iteration order. */
  function EdgeData(g: DiGraph): (r: seq<(int, int, Attrs)>)
    requires Wf(g)
    ensures |r| == |EdgeList(g)|
    ensures forall k :: 0 <= k < |r| ==>
      && (r[k].0, r[k].1) == EdgeList(g)[k] && EdgeList(g)[k] in g.edgeAttrs
      && r[k].2 == g.edgeAttrs[EdgeList(g)[k]]
  {
    var es := EdgeList(g);
    seq(|es|, k requires 0 <= k < |es| =>
      assert es[k] in es;
      (es[k].0, es[k].1, g.edgeAttrs[es[k]]))
  }

  /** The type codes of the first k edges, or None at the first edge whose
      type is unknown. */
  function EdgeTypes(data: seq<(int, int, Attrs)>, k: nat): Option<seq<nat>>
    requires k <= |data|
  {
    if k == 0 then Some([])
    else match EdgeTypes(data, k - 1)
      case None => None
      case Some(ts) =>
        match EdgeTypeCode(data[k - 1].2)
        case None => None
        case Some(t) => Some(ts + [t])
  }

  /** The weights of the first k edges as a float tensor, or None if one
      of them is not a number. */
  function Weights(data: seq<(int, int, Attrs)>, k: nat): Option<seq<real>>
    requires k <= |data|
  {
    if k == 0 then Some([])
    else match Weights(data, k - 1)
      case None => None
      case Some(ws) =>
        match Weight(data[k - 1].2)
        case Text(_) => None
        case Num(w) => Some(ws + [w])
  }

  /** Both endpoints of every edge are mapped. */
  predicate Mapped(mapping: map<int, nat>, data: seq<(int, int, Attrs)>) {
    forall k :: 0 <= k < |data| ==> data[k].0 in mapping && data[k].1 in mapping
  }

  /** The index pairs of the edges under the node mapping. */
  function EdgeIndex(mapping: map<int, nat>, data: seq<(int, int, Attrs)>): (r: seq<(nat, nat)>)
    requires Mapped(mapping, data)
    ensures |r| == |data|
  {
    seq(|data|, k requires 0 <= k < |data| => (mapping[data[k].0], mapping[data[k].1]))
  }

  /** Both endpoints of every edge of a graph have a number. */
  lemma EndpointsMapped(g: DiGraph)
    requires Wf(g)
    ensures Mapped(NodeMapping(g.order), EdgeData(g))
  {
    NodeMappingNumbers(g.order);
    var es, data := EdgeList(g), EdgeData(g);
    forall k | 0 <= k < |data|
      ensures data[k].0 in NodeMapping(g.order) && data[k].1 in NodeMapping(g.order)
    {
      assert es[k] in es;
      var j :| 0 <= j < |g.pairs| && g.pairs[j] == es[k];
      var u, v := es[k].0, es[k].1;
      assert u in g.nodeAttrs && v in g.nodeAttrs;
      assert u in g.order && v in g.order;
      assert u in NodeMapping(g.order);
      assert v in NodeMapping(g.order);
    }
  }

  /** `convert_to_pyg_data`: the node table, then the edge types, then the
      weight tensor, each failing at its first bad entry. */
  function Convert(g: DiGraph): (r: Result<PygData>)
    requires Wf(g)
    ensures r.Failure? ==> r.error in {EmptyGraphError, KeyError, NotANumber}
    ensures r.Success? ==>
      && |r.value.x| == |r.value.nodeType| == |g.order|
      && |r.value.edgeIndex| == |r.value.edgeAttr| == |r.value.edgeType| == |g.pairs|
  {
    if |g.order| == 0 then Failure(EmptyGraphError)
    else
      NodeTableIs(g, |g.order|);
      EdgeListPermutes(g);
      EdgeTypesAre(EdgeData(g), |EdgeData(g)|);
      WeightsAre(EdgeData(g), |EdgeData(g)|);
      match NodeTable(g, |g.order|)
      case Failure(e) => Failure(e)
      case Success(table) =>
        var data := EdgeData(g);
        match EdgeTypes(data, |data|)
        case None => Failure(KeyError)
        case Some(etypes) =>
          match Weights(data, |data|)
          case None => Failure(NotANumber)
          case Some(ws) =>
            EndpointsMapped(g);
            Success(PygData(table.1, EdgeIndex(NodeMapping(g.order), data), ws, table.0, etypes))
  }

  // ---------------------------------------------------------------------
  // What conversion produces

  /** A node converts: its type is known and its six features are numbers
      or absent. */
  predicate NodeOk(a: Attrs) {
    NodeTypeCode(a).Some? && forall j :: 0 <= j < NumFeatures ==> FeatureValue(a, FeatureKeys[j]).Some?
  }

  /** Column j of a row holds the feature FEATURE_KEYS[j]: the stored
      number, or 0.0 when the node lacks it. */
  ghost predicate RowOf(a: Attrs, row: Row, n: nat)
    requires n <= NumFeatures
  {
    && |row| == n
    && forall j :: 0 <= j < n ==>
         (FeatureKeys[j] in a ==> a[FeatureKeys[j]] == Num(row[j]))
         && (FeatureKeys[j] !in a ==> row[j] == 0.0)
  }

  lemma {:induction false} RowPrefixIs(a: Attrs, n: nat)
    requires n <= NumFeatures
    ensures RowPrefix(a, n).Some? <==> forall j :: 0 <= j < n ==> FeatureValue(a, FeatureKeys[j]).Some?
    ensures RowPrefix(a, n).Some? ==> RowOf(a, RowPrefix(a, n).value, n)
  {
    if n > 0 {
      RowPrefixIs(a, n - 1);
    }
  }

  /** The first k nodes convert exactly when each of them does, and then
      entry i of the table is the i-th node in insertion order. */
  lemma {:induction false} NodeTableIs(g: DiGraph, k: nat)
    requires Wf(g) && k <= |g.order|
    ensures NodeTable(g, k).Success? <==> forall i :: 0 <= i < k ==> NodeOk(g.nodeAttrs[g.order[i]])
    ensures NodeTable(g, k).Failure? ==> NodeTable(g, k).error in {KeyError, NotANumber}
    ensures NodeTable(g, k).Success? ==>
      var (types, x) := NodeTable(g, k).value;
      && |types| == k && |x| == k
      && forall i :: 0 <= i < k ==>
           var a := g.nodeAttrs[g.order[i]];
           && NodeTypeCode(a) == Some(types[i])
           && RowOf(a, x[i], NumFeatures)
  {
    if k > 0 {
      NodeTableIs(g, k - 1);
      var a := g.nodeAttrs[g.order[k - 1]];
      RowPrefixIs(a, NumFeatures);
    }
  }

  lemma {:induction false} EdgeTypesAre(data: seq<(int, int, Attrs)>, k: nat)
    requires k <= |data|
    ensures EdgeTypes(data, k).Some? <==> forall i :: 0 <= i < k ==> EdgeTypeCode(data[i].2).Some?
    ensures EdgeTypes(data, k).Some? ==>
      && |EdgeTypes(data, k).value| == k
      && forall i :: 0 <= i < k ==> EdgeTypeCode(data[i].2) == Some(EdgeTypes(data, k).value[i])
  {
    if k > 0 {
      EdgeTypesAre(data, k - 1);
    }
  }

  lemma {:induction false} WeightsAre(data: seq<(int, int, Attrs)>, k: nat)
    requires k <= |data|
    ensures Weights(data, k).Some? <==> forall i :: 0 <= i < k ==> Weight(data[i].2).Num?
    ensures Weights(data, k).Some? ==>
      && |Weights(data, k).value| == k
      && forall i :: 0 <= i < k ==> Weight(data[i].2) == Num(Weights(data, k).value[i])
  {
    if k > 0 {
      WeightsAre(data, k - 1);
    }
  }

  /** An edge converts: its type is known and its weight is a number. */
  predicate EdgeConverts(a: Attrs) {
    EdgeTypeCode(a).Some? && Weight(a).Num?
  }

  /** The iteration-order edge data all convert when every edge does. */
  lemma AllEdgesConvert(g: DiGraph)
    requires Wf(g) && forall k :: 0 <= k < |g.pairs| ==> EdgeConverts(g.edgeAttrs[g.pairs[k]])
    ensures EdgeTypes(EdgeData(g), |EdgeData(g)|).Some? && Weights(EdgeData(g), |EdgeData(g)|).Some?
  {
    EdgeListPermutes(g);
    var es, data := EdgeList(g), EdgeData(g);
    EdgeTypesAre(data, |data|);
    WeightsAre(data, |data|);
    forall i | 0 <= i < |data| ensures EdgeConverts(data[i].2) {
      assert es[i] in g.pairs;
      var k :| 0 <= k < |g.pairs| && g.pairs[k] == es[i];
    }
  }

  /** One edge that does not convert stops the iteration-order data from
      converting. */
  lemma BadEdgeStops(g: DiGraph, k: nat)
    requires Wf(g) && k < |g.pairs| && !EdgeConverts(g.edgeAttrs[g.pairs[k]])
    ensures !(EdgeTypes(EdgeData(g), |EdgeData(g)|).Some? && Weights(EdgeData(g), |EdgeData(g)|).Some?)
  {
    EdgeListPermutes(g);
    var es, data := EdgeList(g), EdgeData(g);
    EdgeTypesAre(data, |data|);
    WeightsAre(data, |data|);
    assert g.pairs[k] in es;
    var i :| 0 <= i < |es| && es[i] == g.pairs[k];
    assert !EdgeConverts(data[i].2);
  }

  /** Every edge in iteration order converts exactly when every edge of
      the graph does. */
  lemma EdgesConvert(g: DiGraph)
    requires Wf(g)
    ensures (EdgeTypes(EdgeData(g), |EdgeData(g)|).Some? && Weights(EdgeData(g), |EdgeData(g)|).Some?)
      <==> forall k :: 0 <= k < |g.pairs| ==> EdgeConverts(g.edgeAttrs[g.pairs[k]])
  {
    if forall k :: 0 <= k < |g.pairs| ==> EdgeConverts(g.edgeAttrs[g.pairs[k]]) {
      AllEdgesConvert(g);
    } else {
      var k :| 0 <= k < |g.pairs| && !EdgeConverts(g.edgeAttrs[g.pairs[k]]);
      BadEdgeStops(g, k);
    }
  }

  /** Conversion fails on the empty graph, and otherwise succeeds exactly
      when every node and every edge converts. */
  lemma ConvertSucceeds(g: DiGraph)
    requires Wf(g)
    ensures Convert(g) == Failure(EmptyGraphError) <==> |g.order| == 0
    ensures Convert(g).Success? <==>
      && |g.order| > 0
      && (forall i :: 0 <= i < |g.order| ==> NodeOk(g.nodeAttrs[g.order[i]]))
      && (forall k :: 0 <= k < |g.pairs| ==> EdgeConverts(g.edgeAttrs[g.pairs[k]]))
  {
    if |g.order| > 0 {
      NodeTableIs(g, |g.order|);
      EdgesConvert(g);
    }
  }

  /** The type codes are those of the schema. */
  lemma TypeCodesInRange(a: Attrs)
    ensures NodeTypeCode(a).Some? ==> NodeTypeCode(a).value < 6
    ensures EdgeTypeCode(a).Some? ==> EdgeTypeCode(a).value < 4
  {
    SchemaShape();
  }

  /** The edge columns, in iteration order: the numbers of both endpoints,
      the type code and the weight of each edge, each edge once. */
  lemma EdgeColumns(g: DiGraph)
    requires Wf(g)
    requires EdgeTypes(EdgeData(g), |EdgeData(g)|).Some? && Weights(EdgeData(g), |EdgeData(g)|).Some?
    ensures Mapped(NodeMapping(g.order), EdgeData(g))
    ensures var data := EdgeData(g);
      var index, types, ws := EdgeIndex(NodeMapping(g.order), data), EdgeTypes(data, |data|).value, Weights(data, |data|).value;
      && |index| == |types| == |ws| == |g.pairs|
      && (forall k :: 0 <= k < |index| ==>
            && index[k].0 < |g.order| && index[k].1 < |g.order|
            && (g.order[index[k].0], g.order[index[k].1]) in g.pairs
            && var a := g.edgeAttrs[(g.order[index[k].0], g.order[index[k].1])];
            && EdgeTypeCode(a) == Some(types[k])
            && Weight(a) == Num(ws[k]))
      && Distinct(index)
  {
    EdgeListPermutes(g);
    var data := EdgeData(g);
    EdgeTypesAre(data, |data|);
    WeightsAre(data, |data|);
    EdgeIndexIs(g);
  }

  /** Under the node mapping each edge becomes the pair of its endpoints'
      positions in node order, and distinct edges stay distinct. */
  lemma EdgeIndexIs(g: DiGraph)
    requires Wf(g)
    ensures Mapped(NodeMapping(g.order), EdgeData(g))
    ensures var index := EdgeIndex(NodeMapping(g.order), EdgeData(g));
      && (forall k :: 0 <= k < |index| ==>
            && index[k].0 < |g.order| && index[k].1 < |g.order|
            && (g.order[index[k].0], g.order[index[k].1]) == EdgeList(g)[k])
      && Distinct(index)
  {
    EdgeListPermutes(g);
    NodeMappingNumbers(g.order);
    EndpointsMapped(g);
    var es := EdgeList(g);
    var index := EdgeIndex(NodeMapping(g.order), EdgeData(g));
    forall k | 0 <= k < |es|
      ensures index[k].0 < |g.order| && index[k].1 < |g.order|
      ensures (g.order[index[k].0], g.order[index[k].1]) == es[k]
    {
      var u, v := es[k].0, es[k].1;
      assert es[k] in es;
      var j :| 0 <= j < |g.pairs| && g.pairs[j] == es[k];
      assert u in g.nodeAttrs && v in g.nodeAttrs;
      assert u in g.order && v in g.order;
      var iu :| 0 <= iu < |g.order| && g.order[iu] == u;
      var iv :| 0 <= iv < |g.order| && g.order[iv] == v;
    }
    forall k, k' | 0 <= k < k' < |es| ensures index[k] != index[k'] {
      assert es[k] != es[k'];
    }
  }

  /** A converted graph: an N x 6 feature matrix whose row i is the i-th
      node's features, the node type codes, and one column of the edge
      index, one type and one weight per edge of the graph, each edge once. */
  lemma ConvertContents(g: DiGraph)
    requires Wf(g) && Convert(g).Success?
    ensures var d := Convert(g).value;
      && |d.x| == |g.order| == |d.nodeType|
      && IsFeatureMatrix(d.x)
      && (forall i :: 0 <= i < |g.order| ==>
            var a := g.nodeAttrs[g.order[i]];
            && RowOf(a, d.x[i], NumFeatures)
            && NodeTypeCode(a) == Some(d.nodeType[i]))
      && |d.edgeIndex| == |d.edgeType| == |d.edgeAttr| == |g.pairs|
      && (forall k :: 0 <= k < |d.edgeIndex| ==>
            && d.edgeIndex[k].0 < |g.order| && d.edgeIndex[k].1 < |g.order|
            && (g.order[d.edgeIndex[k].0], g.order[d.edgeIndex[k].1]) in g.pairs
            && var a := g.edgeAttrs[(g.order[d.edgeIndex[k].0], g.order[d.edgeIndex[k].1])];
            && EdgeTypeCode(a) == Some(d.edgeType[k])
            && Weight(a) == Num(d.edgeAttr[k]))
      && Distinct(d.edgeIndex)
  {
    NodeTableIs(g, |g.order|);
    EdgeColumns(g);
  }

  // ---------------------------------------------------------------------
  // A failure stays the answer

  lemma {:induction false} RowPrefixStaysNone(a: Attrs, i: nat, j: nat)
    requires i <= j <= NumFeatures && RowPrefix(a, i).None?
    ensures RowPrefix(a, j).None?
    decreases j - i
  {
    if i < j {
      RowPrefixStaysNone(a, i + 1, j);
    }
  }

  lemma {:induction false} NodeTableStaysFailed(g: DiGraph, i: nat, j: nat)
    requires Wf(g) && i <= j <= |g.order| && NodeTable(g, i).Failure?
    ensures NodeTable(g, j) == NodeTable(g, i)
    decreases j - i
  {
    if i < j {
      NodeTableStaysFailed(g, i + 1, j);
    }
  }

  lemma {:induction false} EdgeTypesStayNone(data: seq<(int, int, Attrs)>, i: nat, j: nat)
    requires i <= j <= |data| && EdgeTypes(data, i).None?
    ensures EdgeTypes(data, j).None?
    decreases j - i
  {
    if i < j {
      EdgeTypesStayNone(data, i + 1, j);
    }
  }

  lemma {:induction false} WeightsStayNone(data: seq<(int, int, Attrs)>, i: nat, j: nat)
    requires i <= j <= |data| && Weights(data, i).None?
    ensures Weights(data, j).None?
    decreases j - i
  {
    if i < j {
      WeightsStayNone(data, i + 1, j);
    }
  }

  // ---------------------------------------------------------------------
  // Reading features back

  /** The first n features of a row, keyed by name. */
  function FeatureDict(row: Row, n: nat): map<string, real>
    requires n <= NumFeatures <= |row|
  {
    SchemaShape();
    map j | 0 <= j < n :: FeatureKeys[j] := row[j]
  }

  /** Each feature name adds one entry to the dictionary. */
  lemma FeatureDictStep(row: Row, n: nat)
    requires n < NumFeatures <= |row|
    ensures FeatureDict(row, n + 1) == FeatureDict(row, n)[FeatureKeys[n] := row[n]]
  {
    SchemaShape();
  }

  /** `extract_features_to_dict(x, node_id)`: `x[node_id, i]` for every
      feature; None is the IndexError torch raises for a row or column
      outside the tensor. */
  function FeaturesOf(x: Matrix, nodeId: int): Option<map<string, real>> {
    match Index(x, nodeId)
    case None => None
    case Some(row) => if |row| < NumFeatures then None else Some(FeatureDict(row, NumFeatures))
  }

  /** Reading a converted node's row back gives every feature under its
      own name: the number the graph stores, or 0.0 if it stores none. */
  lemma ExtractRoundTrip(g: DiGraph, i: int)
    requires Wf(g) && Convert(g).Success? && 0 <= i < |g.order|
    ensures var m := FeaturesOf(Convert(g).value.x, i);
      var a := g.nodeAttrs[g.order[i]];
      && m.Some?
      && (forall key :: key in m.value <==> key in FeatureKeys)
      && (forall key :: key in FeatureKeys && key in a ==> a[key] == Num(m.value[key]))
      && (forall key :: key in FeatureKeys && key !in a ==> m.value[key] == 0.0)
  {
    ConvertContents(g);
    var x := Convert(g).value.x;
    assert RowOf(g.nodeAttrs[g.order[i]], x[i], NumFeatures);
    RowDict(g.nodeAttrs[g.order[i]], x[i]);
  }

  /** A row read from a node's attributes, keyed by feature name, gives
      back what the node stores. */
  lemma RowDict(a: Attrs, row: Row)
    requires RowOf(a, row, NumFeatures)
    ensures var m := FeatureDict(row, NumFeatures);
      && (forall key :: key in m <==> key in FeatureKeys)
      && (forall key :: key in FeatureKeys && key in a ==> a[key] == Num(m[key]))
      && (forall key :: key in FeatureKeys && key !in a ==> m[key] == 0.0)
  {
    SchemaShape();
    var m := FeatureDict(row, NumFeatures);
    forall key | key in FeatureKeys ensures key in m {
      var j :| 0 <= j < |FeatureKeys| && FeatureKeys[j] == key;
      assert m[key] == row[j];
    }
  }

  // ---------------------------------------------------------------------
  // The builder object

  class GraphBuilder {
    var nxGraph: DiGraph

    ghost predicate Valid()
      reads this
    {
      Wf(nxGraph)
    }

    constructor()
      ensures Valid() && nxGraph == EmptyGraph
    {
      nxGraph := EmptyGraph;
    }

    /** Clears the graph, then adds every node and every edge in order. */
    method BuildFromSyntheticData(nodes: seq<NodeSpec>, edges: seq<EdgeSpec>) returns (g: DiGraph)
      requires NoTypeClash(nodes)
      modifies this
      ensures Valid() && nxGraph == Build(nodes, edges) && g == nxGraph
    {
      nxGraph := EmptyGraph;
      for i := 0 to |nodes|
        invariant nxGraph == AddNodes(EmptyGraph, nodes[..i])
      {
        var node := nodes[i];
        nxGraph := AddNode(nxGraph, node.id, NodeAttrsOf(node));
        assert nodes[..i + 1][..i] == nodes[..i];
      }
      assert nodes[..|nodes|] == nodes;
      for i := 0 to |edges|
        invariant nxGraph == AddEdges(AddNodes(EmptyGraph, nodes), edges[..i])
      {
        var edge := edges[i];
        nxGraph := AddEdge(nxGraph, edge.source, edge.target, edge.attrs);
        assert edges[..i + 1][..i] == edges[..i];
      }
      assert edges[..|edges|] == edges;
      BuildWf(nodes, edges);
      g := nxGraph;
    }

    /** Numbers the nodes, fills the node tensors row by row and collects
        the edge lists, raising at the first node or edge that does not
        convert. */
    method ConvertToPygData() returns (r: Result<PygData>)
      requires Valid()
      ensures r == Convert(nxGraph)
    {
      var g := nxGraph;
      if |g.order| == 0 {
        return Failure(EmptyGraphError);
      }
      var mapping := NodeMapping(g.order);
      var nodes := FillNodeTensors(g, mapping);
      if nodes.Failure? {
        return Failure(nodes.error);
      }
      var data := EdgeData(g);
      EndpointsMapped(g);
      var ok, edgeIndices, edgeTypes, edgeWeights := CollectEdges(mapping, data);
      if !ok {
        return Failure(KeyError);
      }
      var weights := WeightTensor(data, edgeWeights);
      if weights.None? {
        return Failure(NotANumber);
      }
      r := Success(PygData(nodes.value.1, edgeIndices, weights.value, nodes.value.0, edgeTypes));
    }
  }

  /** The feature row of one node: `data.get(key, 0.0)` column by column. */
  method FillRow(data: Attrs) returns (r: Option<Row>)
    ensures r == RowPrefix(data, NumFeatures)
  {
    var row: Row := seq(NumFeatures, _ => 0.0);
    for i := 0 to NumFeatures
      invariant |row| == NumFeatures
      invariant RowPrefix(data, i).Some? && row[..i] == RowPrefix(data, i).value
    {
      var v := FeatureValue(data, FeatureKeys[i]);
      if v.None? {
        RowPrefixStaysNone(data, i + 1, NumFeatures);
        return None;
      }
      row := row[i := v.value];
      assert row[..i + 1] == row[..i] + [v.value];
    }
    assert row == row[..NumFeatures];
    r := Some(row);
  }

  /** Writing node k's entry at index k extends tables that hold the first
      k entries to the first k + 1. */
  lemma NodeTableSnoc(g: DiGraph, k: nat, x: Matrix, nodeTypes: seq<nat>, code: nat, row: Row)
    requires Wf(g) && k < |g.order| && k < |x| && k < |nodeTypes|
    requires NodeTable(g, k).Success?
    requires x[..k] == NodeTable(g, k).value.1 && nodeTypes[..k] == NodeTable(g, k).value.0
    requires NodeEntry(g.nodeAttrs[g.order[k]]) == Success((code, row))
    ensures NodeTable(g, k + 1).Success?
    ensures x[k := row][..k + 1] == NodeTable(g, k + 1).value.1
    ensures nodeTypes[k := code][..k + 1] == NodeTable(g, k + 1).value.0
  {
    assert x[k := row][..k + 1] == x[..k] + [row];
    assert nodeTypes[k := code][..k + 1] == nodeTypes[..k] + [code];
  }

  /** The zero-filled `x` and `node_type` tensors, written at each node's
      mapped index. */
  method FillNodeTensors(g: DiGraph, mapping: map<int, nat>) returns (r: Result<(seq<nat>, Matrix)>)
    requires Wf(g) && mapping == NodeMapping(g.order)
    ensures r == NodeTable(g, |g.order|)
  {
    NodeMappingNumbers(g.order);
    var numNodes := |g.order|;
    var x: Matrix := seq(numNodes, _ => seq(NumFeatures, _ => 0.0));
    var nodeTypes: seq<nat> := seq(numNodes, _ => 0);
    for k := 0 to numNodes
      invariant |x| == numNodes && |nodeTypes| == numNodes
      invariant NodeTable(g, k).Success?
      invariant x[..k] == NodeTable(g, k).value.1 && nodeTypes[..k] == NodeTable(g, k).value.0
    {
      var n := g.order[k];
      var data := g.nodeAttrs[n];
      var mappedIdx := mapping[n];
      var code := NodeTypeCode(data);
      if code.None? {
        NodeTableStaysFailed(g, k + 1, numNodes);
        return Failure(KeyError);
      }
      var row := FillRow(data);
      if row.None? {
        NodeTableStaysFailed(g, k + 1, numNodes);
        return Failure(NotANumber);
      }
      NodeTableSnoc(g, k, x, nodeTypes, code.value, row.value);
      nodeTypes := nodeTypes[mappedIdx := code.value];
      x := x[mappedIdx := row.value];
    }
    assert x == x[..numNodes] && nodeTypes == nodeTypes[..numNodes];
    r := Success((nodeTypes, x));
  }

  /** The edge loop: index pairs, type codes and raw weights, or false at
      the first unknown edge type. */
  method CollectEdges(mapping: map<int, nat>, data: seq<(int, int, Attrs)>)
    returns (ok: bool, edgeIndices: seq<(nat, nat)>, edgeTypes: seq<nat>, edgeWeights: seq<Value>)
    requires Mapped(mapping, data)
    ensures ok <==> EdgeTypes(data, |data|).Some?
    ensures ok ==> edgeIndices == EdgeIndex(mapping, data) && EdgeTypes(data, |data|) == Some(edgeTypes)
    ensures ok ==> |edgeWeights| == |data| && forall i :: 0 <= i < |data| ==> edgeWeights[i] == Weight(data[i].2)
  {
    edgeIndices, edgeTypes, edgeWeights := [], [], [];
    for k := 0 to |data|
      invariant edgeIndices == EdgeIndex(mapping, data)[..k]
      invariant EdgeTypes(data, k) == Some(edgeTypes)
      invariant |edgeWeights| == k && forall i :: 0 <= i < k ==> edgeWeights[i] == Weight(data[i].2)
    {
      var (u, v, attrs) := data[k];
      edgeIndices := edgeIndices + [(mapping[u], mapping[v])];
      var t := EdgeTypeCode(attrs);
      if t.None? {
        EdgeTypesStayNone(data, k + 1, |data|);
        return false, edgeIndices, edgeTypes, edgeWeights;
      }
      edgeTypes := edgeTypes + [t.value];
      edgeWeights := edgeWeights + [Weight(attrs)];
    }
    assert edgeIndices == EdgeIndex(mapping, data);
    ok := true;
  }

  /** `torch.tensor(edge_weights, dtype=torch.float)`. */
  method WeightTensor(data: seq<(int, int, Attrs)>, edgeWeights: seq<Value>) returns (r: Option<seq<real>>)
    requires |edgeWeights| == |data| && forall i :: 0 <= i < |data| ==> edgeWeights[i] == Weight(data[i].2)
    ensures r == Weights(data, |data|)
  {
    var weights: seq<real> := [];
    for k := 0 to |edgeWeights|
      invariant Weights(data, k) == Some(weights)
    {
      match edgeWeights[k]
      case Text(_) =>
        WeightsStayNone(data, k + 1, |data|);
        return None;
      case Num(w) =>
        weights := weights + [w];
    }
    r := Some(weights);
  }

  /** Reads one row of a feature tensor back into a dictionary. */
  method ExtractFeaturesToDict(x: Matrix, nodeId: int) returns (r: Option<map<string, real>>)
    ensures r == FeaturesOf(x, nodeId)
  {
    var row := Index(x, nodeId);
    if row.None? || |row.value| < NumFeatures {
      return None;
    }
    var features: map<string, real> := map[];
    for i := 0 to NumFeatures
      invariant features == FeatureDict(row.value, i)
    {
      FeatureDictStep(row.value, i);
      features := features[FeatureKeys[i] := row.value[i]];
    }
    r := Some(features);
  }

  // ---------------------------------------------------------------------
  // Building and converting well-formed records

  /** Node records numbered 0..N-1 with known types and all six features,
      and edges between them with distinct endpoint pairs, known types and
      numeric weights. */
  ghost predicate RecordsOk(nodes: seq<NodeSpec>, edges: seq<EdgeSpec>) {
    && (forall i :: 0 <= i < |nodes| ==> nodes[i].id == i && nodes[i].nodeType in NodeTypeMap)
    && (forall i, j :: 0 <= i < |nodes| && 0 <= j < NumFeatures ==> FeatureKeys[j] in nodes[i].features)
    && (forall k :: 0 <= k < |edges| ==>
          0 <= edges[k].source < |nodes| && 0 <= edges[k].target < |nodes| && EdgeConverts(edges[k].attrs))
    && (forall k, k' :: 0 <= k < k' < |edges| ==>
          (edges[k].source, edges[k].target) != (edges[k'].source, edges[k'].target))
  }

  /** Such records build a graph whose node i is record i and whose k-th
      edge is record k. */
  lemma BuiltGraph(nodes: seq<NodeSpec>, edges: seq<EdgeSpec>)
    requires RecordsOk(nodes, edges)
    ensures var g := Build(nodes, edges);
      && Wf(g)
      && |g.order| == |nodes|
      && (forall i :: 0 <= i < |nodes| ==>
            g.order[i] == i && i in g.nodeAttrs && g.nodeAttrs[i] == NodeAttrsOf(nodes[i]))
      && StoredInOrder(g, edges)
  {
    AddNodesFresh(nodes);
    AddNodesWf(nodes);
    var g0 := AddNodes(EmptyGraph, nodes);
    assert g0.edgeAttrs == map[];
    forall k | 0 <= k < |edges|
      ensures edges[k].source in g0.nodeAttrs && edges[k].target in g0.nodeAttrs
    {
      assert nodes[edges[k].source].id == edges[k].source;
      assert nodes[edges[k].target].id == edges[k].target;
    }
    AddEdgesFresh(g0, edges);
    BuildWf(nodes, edges);
  }

  /** Such records always convert. */
  lemma BuiltConverts(nodes: seq<NodeSpec>, edges: seq<EdgeSpec>)
    requires RecordsOk(nodes, edges) && |nodes| > 0
    ensures Wf(Build(nodes, edges)) && Convert(Build(nodes, edges)).Success?
  {
    var g := Build(nodes, edges);
    BuiltGraph(nodes, edges);
    forall i | 0 <= i < |g.order| ensures NodeOk(g.nodeAttrs[g.order[i]]) {
      NodeAttrsOk(nodes[i]);
    }
    ConvertSucceeds(g);
  }

  /** Row i of the converted matrix holds record i's six features. */
  lemma BuiltRows(nodes: seq<NodeSpec>, edges: seq<EdgeSpec>)
    requires RecordsOk(nodes, edges) && |nodes| > 0
    ensures Wf(Build(nodes, edges)) && Convert(Build(nodes, edges)).Success?
    ensures var d := Convert(Build(nodes, edges)).value;
      && |d.x| == |nodes| && IsFeatureMatrix(d.x)
      && forall i, j :: 0 <= i < |nodes| && 0 <= j < NumFeatures ==>
           d.x[i][j] == nodes[i].features[FeatureKeys[j]]
  {
    var g := Build(nodes, edges);
    BuiltConverts(nodes, edges);
    BuiltGraph(nodes, edges);
    ConvertContents(g);
    var d := Convert(g).value;
    SchemaShape();
    forall i, j | 0 <= i < |nodes| && 0 <= j < NumFeatures
      ensures d.x[i][j] == nodes[i].features[FeatureKeys[j]]
    {
      var a := g.nodeAttrs[g.order[i]];
      assert a == NodeAttrsOf(nodes[i]);
      assert FeatureKeys[j] != "node_type";
      assert RowOf(a, d.x[i], NumFeatures);
    }
  }

  /** The edge index has one column per edge record, each record once,
      carrying that record's type code and weight. */
  lemma BuiltEdges(nodes: seq<NodeSpec>, edges: seq<EdgeSpec>)
    requires RecordsOk(nodes, edges) && |nodes| > 0
    ensures Wf(Build(nodes, edges)) && Convert(Build(nodes, edges)).Success?
    ensures var d := Convert(Build(nodes, edges)).value;
      && |d.edgeIndex| == |d.edgeType| == |d.edgeAttr| == |edges|
      && Distinct(d.edgeIndex)
      && forall k :: 0 <= k < |d.edgeIndex| ==> ColumnOf(edges, d.edgeIndex[k], d.edgeType[k], d.edgeAttr[k])
  {
    var g := Build(nodes, edges);
    BuiltConverts(nodes, edges);
    BuiltGraph(nodes, edges);
    ConvertContents(g);
    var d := Convert(g).value;
    ColumnsFromRecords(g, edges, d.edgeIndex, d.edgeType, d.edgeAttr);
  }

  /** Some record has this endpoint pair, this type code and this weight. */
  ghost predicate ColumnOf(edges: seq<EdgeSpec>, pair: (int, int), code: nat, weight: real) {
    exists e :: 0 <= e < |edges| && pair == (edges[e].source, edges[e].target)
      && EdgeTypeCode(edges[e].attrs) == Some(code)
      && Weight(edges[e].attrs) == Num(weight)
  }

  /** Every column the conversion emits for a graph holding the records'
      edges comes from one of those records. */
  lemma ColumnsFromRecords(g: DiGraph, edges: seq<EdgeSpec>, ei: seq<(nat, nat)>, et: seq<nat>, ea: seq<real>)
    requires |g.pairs| == |edges|
    requires forall k :: 0 <= k < |edges| ==>
      g.pairs[k] == (edges[k].source, edges[k].target) && g.pairs[k] in g.edgeAttrs && g.edgeAttrs[g.pairs[k]] == edges[k].attrs
    requires forall i :: 0 <= i < |g.order| ==> g.order[i] == i
    requires |ei| == |et| == |ea|
    requires forall k :: 0 <= k < |ei| ==>
      && ei[k].0 < |g.order| && ei[k].1 < |g.order|
      && (g.order[ei[k].0], g.order[ei[k].1]) in g.pairs
      && (g.order[ei[k].0], g.order[ei[k].1]) in g.edgeAttrs
      && var a := g.edgeAttrs[(g.order[ei[k].0], g.order[ei[k].1])];
      && EdgeTypeCode(a) == Some(et[k])
      && Weight(a) == Num(ea[k])
    ensures forall k :: 0 <= k < |ei| ==> ColumnOf(edges, ei[k], et[k], ea[k])
  {
    forall k | 0 <= k < |ei| ensures ColumnOf(edges, ei[k], et[k], ea[k]) {
      var p := (g.order[ei[k].0], g.order[ei[k].1]);
      var e :| 0 <= e < |g.pairs| && g.pairs[e] == p;
      assert g.edgeAttrs[p] == edges[e].attrs;
    }
  }


}
