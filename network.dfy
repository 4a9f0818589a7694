/** The network dashboard (Cognis-frontend/src/components/NetworkDashboard.jsx): a fixed graph
    of entities and their links, the click hit-test that selects a node, the edge-endpoint
    lookup the drawing uses, and the logged network search. Click coordinates are whole
    canvas pixels. */
module Network {
  import opened Wrappers
  import opened Text
  import opened Seqs
  import opened Audit
  import AppShell

  datatype Node = Node(id: string, kind: string, x: int, y: int, name: string, size: nat)
  datatype Edge = Edge(source: string, target: string, kind: string, weight: nat)

  /** `networkData.nodes`, in list order. */
  const Nodes: seq<Node> := [
    Node("john_doe", "person", 200, 200, "John Doe", 20),
    Node("phone_123", "phone", 350, 150, "+1-555-0123", 15),
    Node("location_1", "location", 150, 350, "New York, NY", 16),
    Node("file_1", "file", 400, 250, "transfer_001.jpg", 12)
  ]

  /** `networkData.edges`. */
  const Edges: seq<Edge> := [
    Edge("john_doe", "phone_123", "owns", 5),
    Edge("phone_123", "location_1", "located_at", 8),
    Edge("john_doe", "location_1", "visited", 4),
    Edge("john_doe", "file_1", "created", 3)
  ]

  /** The click lies on the node's disc, its rim included: the distance test
      `sqrt(dx² + dy²) <= size` in squared form. */
  predicate Hits(n: Node, x: int, y: int) {
    (x - n.x) * (x - n.x) + (y - n.y) * (y - n.y) <= n.size * n.size
  }

  /** The clicked node: the first node in list order whose disc holds the point, not the
      nearest one. */
  function NodeAt(nodes: seq<Node>, x: int, y: int): (r: Option<Node>)
    ensures r.Some? ==> exists i :: 0 <= i < |nodes| && nodes[i] == r.value && Hits(r.value, x, y)
                                    && forall j :: 0 <= j < i ==> !Hits(nodes[j], x, y)
    ensures r.None? <==> forall i :: 0 <= i < |nodes| ==> !Hits(nodes[i], x, y)
  {
    if |nodes| == 0 then None
    else if Hits(nodes[0], x, y) then Some(nodes[0])
    else
      var rest := NodeAt(nodes[1..], x, y);
      assert rest.Some? ==> exists i :: 1 <= i < |nodes| && nodes[i] == rest.value
                                        && forall j :: 1 <= j < i ==> !Hits(nodes[j], x, y) by {
        if rest.Some? {
          var k :| 0 <= k < |nodes| - 1 && nodes[1..][k] == rest.value
                   && forall j :: 0 <= j < k ==> !Hits(nodes[1..][j], x, y);
          assert nodes[k + 1] == rest.value;
          assert forall j :: 1 <= j < k + 1 ==> nodes[j] == nodes[1..][j - 1];
        }
      }
      assert rest.None? ==> forall i :: 1 <= i < |nodes| ==> !Hits(nodes[i], x, y) by {
        assert forall i :: 1 <= i < |nodes| ==> nodes[i] == nodes[1..][i - 1];
      }
      rest
  }

  /** Where discs overlap, the earlier node wins even when the click is nearer the later one. */
  lemma OverlapGoesToEarlier(a: Node, b: Node, x: int, y: int)
    requires Hits(a, x, y)
    ensures NodeAt([a, b], x, y) == Some(a)
  {
  }

  /** The rim is part of the disc: a click exactly `size` pixels right of John Doe's centre
      selects him, one pixel further selects nothing. */
  lemma HitTestBoundary()
    ensures NodeAt(Nodes, 220, 200) == Some(Nodes[0])
    ensures NodeAt(Nodes, 221, 200) == None
  {
    assert !Hits(Nodes[0], 221, 200);
    assert !Hits(Nodes[1], 221, 200);
    assert !Hits(Nodes[2], 221, 200);
    assert !Hits(Nodes[3], 221, 200);
  }

  /** The first node with the given id, if any: the endpoint lookup of the drawing. */
  function NodeById(nodes: seq<Node>, id: string): (r: Option<Node>)
    ensures r.Some? ==> r.value in nodes && r.value.id == id
    ensures r.None? <==> forall i :: 0 <= i < |nodes| ==> nodes[i].id != id
  {
    FindBy(nodes, (n: Node) => n.id, id)
  }

  /** The drawing strokes an edge only when both of its endpoints are found among the nodes. */
  predicate Drawable(nodes: seq<Node>, e: Edge) {
    NodeById(nodes, e.source).Some? && NodeById(nodes, e.target).Some?
  }

  /** The edges `drawNetwork` strokes, in list order; an edge with a missing endpoint is
      skipped. */
  function DrawnEdges(nodes: seq<Node>, edges: seq<Edge>): (r: seq<Edge>)
    ensures IsSubsequence(r, edges)
    ensures forall i :: 0 <= i < |r| ==> Drawable(nodes, r[i])
    ensures forall i :: 0 <= i < |edges| && Drawable(nodes, edges[i]) ==> edges[i] in r
  {
    Filter(edges, e => Drawable(nodes, e))
  }

  /** The id of any listed node is found. */
  lemma ListedIdFound(nodes: seq<Node>, i: nat)
    requires i < |nodes|
    ensures NodeById(nodes, nodes[i].id).Some?
  {
  }

  /** Node ids are distinct. */
  lemma NodeIdsDistinct()
    ensures forall i, j :: 0 <= i < j < |Nodes| ==> Nodes[i].id != Nodes[j].id
  {
  }

  /** Edge `k` joins the nodes at positions `i` and `j`. */
  lemma EdgeJoins(k: nat, i: nat, j: nat)
    requires k < |Edges| && i < |Nodes| && j < |Nodes|
    requires Edges[k].source == Nodes[i].id && Edges[k].target == Nodes[j].id
    ensures Drawable(Nodes, Edges[k])
  {
    ListedIdFound(Nodes, i);
    ListedIdFound(Nodes, j);
  }

  /** Every edge joins two listed nodes. */
  lemma EdgesJoinListedNodes()
    ensures forall k :: 0 <= k < |Edges| ==> Drawable(Nodes, Edges[k])
  {
    forall k | 0 <= k < |Edges| ensures Drawable(Nodes, Edges[k]) {
      if k == 0 {
        EdgeJoins(0, 0, 1);
      } else if k == 1 {
        EdgeJoins(1, 1, 2);
      } else if k == 2 {
        EdgeJoins(2, 0, 2);
      } else {
        EdgeJoins(3, 0, 3);
      }
    }
  }

  /** Hence the drawing skips no edge of the graph. */
  lemma AllEdgesDrawn()
    ensures DrawnEdges(Nodes, Edges) == Edges
  {
    EdgesJoinListedNodes();
    FilterAll(Edges, e => Drawable(Nodes, e));
  }

  function SelectedDetails(n: Node): string
  {
    "Selected " + n.kind + ": " + n.name
  }

  function SearchDetails(query: string): string
  {
    "Searched for: \"" + query + "\""
  }

  /** The dashboard's state. */
  class NetworkDashboard {
    var selectedNode: Option<Node>
    var searchQuery: string

    constructor ()
      ensures selectedNode == None && searchQuery == ""
    {
      selectedNode := None;
      searchQuery := "";
    }

    /** `handleCanvasClick`: a click on a node selects it and logs one "Node Selected"; a
        click on empty canvas changes nothing and logs nothing. */
    method HandleCanvasClick(app: AppShell.App, x: int, y: int, timestamp: string)
      requires app.Valid()
      modifies this`selectedNode, app`auditLogs
      ensures app.Valid()
      ensures NodeAt(Nodes, x, y).None? ==> selectedNode == old(selectedNode) && app.auditLogs == old(app.auditLogs)
      ensures NodeAt(Nodes, x, y).Some? ==>
        && selectedNode == NodeAt(Nodes, x, y)
        && app.auditLogs == Logged(old(app.auditLogs), "Node Selected", app.currentUser.name, timestamp,
                                   SelectedDetails(NodeAt(Nodes, x, y).value))
    {
      var clicked := NodeAt(Nodes, x, y);
      if clicked.Some? {
        selectedNode := clicked;
        app.AddAuditLog("Node Selected", SelectedDetails(clicked.value), timestamp);
      }
    }

    method SetSearchQuery(query: string)
      modifies this`searchQuery
      ensures searchQuery == query
    {
      searchQuery := query;
    }

    /** `handleSearch`: logs one "Network Search" with the query as typed, and only when the
        trimmed query is not empty. */
    method HandleSearch(app: AppShell.App, timestamp: string)
      requires app.Valid()
      modifies app`auditLogs
      ensures app.Valid()
      ensures IsBlank(searchQuery) ==> app.auditLogs == old(app.auditLogs)
      ensures !IsBlank(searchQuery) ==>
        app.auditLogs == Logged(old(app.auditLogs), "Network Search", app.currentUser.name, timestamp, SearchDetails(searchQuery))
    {
      TrimEmptyIff(searchQuery);
      if Trim(searchQuery) != "" {
        app.AddAuditLog("Network Search", SearchDetails(searchQuery), timestamp);
      }
    }
  }
}
