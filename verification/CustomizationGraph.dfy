/** The customization graph and its bounded neighbourhoods. */
module CustomizationGraph {
  import opened Text
  import opened Reach

  /** What all evidence of one graph must agree on. */
  datatype Scope = Scope(site: string, principal: string, permissionEpoch: string, schemaRevision: string,
                         dataRevision: string)

  datatype Node = Node(id: string, content: string, scope: Scope)

  datatype Edge = Edge(id: string, from: string, to: string, content: string, scope: Scope)

  datatype Graph = Graph(scope: Scope, nodes: seq<Node>, edges: seq<Edge>)

  const MAX_NODES := 25_000
  const MAX_EDGES := 100_000

  // ------------------------------------------------------------- building one

  function NodeIds(nodes: seq<Node>): set<string> {
    set i | 0 <= i < |nodes| :: nodes[i].id
  }

  ghost predicate NodesSorted(nodes: seq<Node>) {
    forall i, j :: 0 <= i < j < |nodes| ==> Less(nodes[i].id, nodes[j].id)
  }

  ghost predicate EdgesSorted(edges: seq<Edge>) {
    forall i, j :: 0 <= i < j < |edges| ==> Less(edges[i].id, edges[j].id)
  }

  /** The same id always carries the same evidence. */
  ghost predicate SameIdSameNode(nodes: seq<Node>) {
    forall i, j :: 0 <= i < j < |nodes| && nodes[i].id == nodes[j].id ==> nodes[i] == nodes[j]
  }

  ghost predicate SameIdSameEdge(edges: seq<Edge>) {
    forall i, j :: 0 <= i < j < |edges| && edges[i].id == edges[j].id ==> edges[i] == edges[j]
  }

  ghost predicate OneScope(nodes: seq<Node>, scope: Scope) {
    forall i :: 0 <= i < |nodes| ==> nodes[i].scope == scope
  }

  ghost predicate Attached(edges: seq<Edge>, scope: Scope, nodeIds: set<string>) {
    forall i :: 0 <= i < |edges| ==> edges[i].scope == scope && edges[i].from in nodeIds && edges[i].to in nodeIds
  }

  /** When `buildFrappeCustomizationGraph` accepts its input. */
  ghost predicate Buildable(nodes: seq<Node>, edges: seq<Edge>) {
    && 0 < |nodes| <= MAX_NODES && |edges| <= MAX_EDGES
    && SameIdSameNode(nodes) && OneScope(nodes, nodes[0].scope)
    && Attached(edges, nodes[0].scope, NodeIds(nodes)) && SameIdSameEdge(edges)
  }

  /** A graph as the builder returns it. */
  ghost predicate Built(graph: Graph) {
    && 0 < |graph.nodes| <= MAX_NODES && |graph.edges| <= MAX_EDGES
    && NodesSorted(graph.nodes) && EdgesSorted(graph.edges)
    && OneScope(graph.nodes, graph.scope) && Attached(graph.edges, graph.scope, NodeIds(graph.nodes))
  }

  /** The values of a map in key order. */
  function InOrder<T>(m: map<string, T>, keys: seq<string>): (r: seq<T>)
    requires forall k :: k in keys ==> k in m
    ensures |r| == |keys| && forall i :: 0 <= i < |keys| ==> r[i] == m[keys[i]]
  {
    if keys == [] then [] else [m[keys[0]]] + InOrder(m, keys[1..])
  }

  ghost predicate MapsNodes(m: map<string, Node>, nodes: seq<Node>) {
    m.Keys == NodeIds(nodes) && forall i :: 0 <= i < |nodes| ==> m[nodes[i].id] == nodes[i]
  }

  function EdgeIds(edges: seq<Edge>): set<string> {
    set i | 0 <= i < |edges| :: edges[i].id
  }

  ghost predicate MapsEdges(m: map<string, Edge>, edges: seq<Edge>) {
    m.Keys == EdgeIds(edges) && forall i :: 0 <= i < |edges| ==> m[edges[i].id] == edges[i]
  }

  method CollectNodes(nodes: seq<Node>) returns (r: Option<map<string, Node>>)
    ensures r.Some? <==> SameIdSameNode(nodes)
    ensures r.Some? ==> MapsNodes(r.value, nodes)
  {
    var m: map<string, Node> := map[];
    for n := 0 to |nodes|
      invariant forall id :: id in m <==> exists i :: 0 <= i < n && nodes[i].id == id
      invariant forall i :: 0 <= i < n ==> nodes[i].id in m && m[nodes[i].id] == nodes[i]
    {
      if nodes[n].id in m && m[nodes[n].id] != nodes[n] {
        assert exists i :: 0 <= i < n && nodes[i].id == nodes[n].id;
        return None;
      }
      m := m[nodes[n].id := nodes[n]];
    }
    r := Some(m);
  }

  method CollectEdges(edges: seq<Edge>, scope: Scope, nodeIds: set<string>) returns (r: Option<map<string, Edge>>)
    ensures r.Some? <==> Attached(edges, scope, nodeIds) && SameIdSameEdge(edges)
    ensures r.Some? ==> MapsEdges(r.value, edges)
  {
    var m: map<string, Edge> := map[];
    for n := 0 to |edges|
      invariant forall i :: 0 <= i < n ==> edges[i].scope == scope && edges[i].from in nodeIds && edges[i].to in nodeIds
      invariant forall id :: id in m <==> exists i :: 0 <= i < n && edges[i].id == id
      invariant forall i :: 0 <= i < n ==> edges[i].id in m && m[edges[i].id] == edges[i]
    {
      if edges[n].scope != scope || edges[n].from !in nodeIds || edges[n].to !in nodeIds { return None; }
      if edges[n].id in m && m[edges[n].id] != edges[n] {
        assert exists i :: 0 <= i < n && edges[i].id == edges[n].id;
        return None;
      }
      m := m[edges[n].id := edges[n]];
    }
    r := Some(m);
  }

  method CommonScope(nodes: seq<Node>) returns (same: bool)
    requires nodes != []
    ensures same <==> OneScope(nodes, nodes[0].scope)
  {
    for n := 0 to |nodes|
      invariant forall i :: 0 <= i < n ==> nodes[i].scope == nodes[0].scope
    {
      if nodes[n].scope != nodes[0].scope { return false; }
    }
    same := true;
  }

  /** `buildFrappeCustomizationGraph` on normalised nodes and edges: either the input is refused,
      or the result holds exactly the given nodes and edges, once each, in id order. */
  method BuildFrappeCustomizationGraph(nodes: seq<Node>, edges: seq<Edge>) returns (r: Option<Graph>)
    ensures r.Some? <==> Buildable(nodes, edges)
    ensures r.Some? ==>
      && Built(r.value) && (forall x :: x in r.value.nodes <==> x in nodes)
      && (forall x :: x in r.value.edges <==> x in edges)
  {
    if nodes == [] || |nodes| > MAX_NODES || |edges| > MAX_EDGES { return None; }
    var nodeMap := CollectNodes(nodes);
    if nodeMap.None? { return None; }
    var same := CommonScope(nodes);
    if !same { return None; }
    var edgeMap := CollectEdges(edges, nodes[0].scope, nodeMap.value.Keys);
    if edgeMap.None? { return None; }
    var m, n := nodeMap.value, edgeMap.value;
    r := Some(Graph(nodes[0].scope, InOrder(m, SortedKeys(m.Keys)), InOrder(n, SortedKeys(n.Keys))));
    NodesInOrder(nodes, m);
    EdgesInOrder(edges, n);
    OrderedScope(nodes, edges, r.value);
  }

  lemma {:induction false} SmallKeys<T(!new)>(items: seq<T>, n: nat, id: T -> string, keys: set<string>)
    requires n <= |items| && forall k :: k in keys ==> exists i :: 0 <= i < n && id(items[i]) == k
    ensures |keys| <= n
  {
    if n == 0 {
      assert keys == {};
    } else {
      var k := id(items[n - 1]);
      SmallKeys(items, n - 1, id, keys - {k});
      assert |keys| <= |keys - {k}| + 1;
    }
  }

  /** A map from ids to items, listed in id order, holds exactly the items. */
  lemma KeyedInOrder<T(!new)>(items: seq<T>, id: T -> string, m: map<string, T>)
    requires forall i :: 0 <= i < |items| ==> id(items[i]) in m && m[id(items[i])] == items[i]
    requires forall k :: k in m ==> exists i :: 0 <= i < |items| && id(items[i]) == k
    ensures var keys := SortedKeys(m.Keys); var r := InOrder(m, keys);
      && |r| <= |items| && (forall i :: 0 <= i < |r| ==> id(r[i]) == keys[i]) && forall x :: x in r <==> x in items
  {
    var keys := SortedKeys(m.Keys);
    var r := InOrder(m, keys);
    SmallKeys(items, |items|, id, m.Keys);
    forall k | 0 <= k < |keys| ensures id(r[k]) == keys[k] && r[k] in items {
      assert keys[k] in keys;
      var i :| 0 <= i < |items| && id(items[i]) == keys[k];
    }
    forall x | x in items ensures x in r {
      var i :| 0 <= i < |items| && items[i] == x;
      assert id(x) in keys;
      var k :| 0 <= k < |keys| && keys[k] == id(x);
      assert r[k] == x;
    }
  }

  lemma NodesInOrder(nodes: seq<Node>, m: map<string, Node>)
    requires MapsNodes(m, nodes)
    ensures var r := InOrder(m, SortedKeys(m.Keys));
      NodesSorted(r) && |r| <= |nodes| && forall x :: x in r <==> x in nodes
  {
    KeyedInOrder(nodes, (x: Node) => x.id, m);
  }

  lemma EdgesInOrder(edges: seq<Edge>, m: map<string, Edge>)
    requires MapsEdges(m, edges)
    ensures var r := InOrder(m, SortedKeys(m.Keys));
      EdgesSorted(r) && |r| <= |edges| && forall x :: x in r <==> x in edges
  {
    KeyedInOrder(edges, (x: Edge) => x.id, m);
  }

  lemma OrderedScope(nodes: seq<Node>, edges: seq<Edge>, g: Graph)
    requires nodes != [] && OneScope(nodes, nodes[0].scope) && Attached(edges, nodes[0].scope, NodeIds(nodes))
    requires (forall x :: x in g.nodes <==> x in nodes) && (forall x :: x in g.edges <==> x in edges)
      && g.scope == nodes[0].scope
    ensures g.nodes != [] && OneScope(g.nodes, g.scope) && Attached(g.edges, g.scope, NodeIds(g.nodes))
  {
    assert nodes[0] in g.nodes;
    forall id | id in NodeIds(nodes) ensures id in NodeIds(g.nodes) {
      var i :| 0 <= i < |nodes| && nodes[i].id == id;
      assert nodes[i] in g.nodes;
    }
    forall i | 0 <= i < |g.nodes| ensures g.nodes[i].scope == g.scope { assert g.nodes[i] in nodes; }
    forall i | 0 <= i < |g.edges|
      ensures g.edges[i].scope == g.scope && g.edges[i].from in NodeIds(g.nodes) && g.edges[i].to in NodeIds(g.nodes)
    {
      assert g.edges[i] in edges;
    }
  }

  // ------------------------------------------------------- the neighbourhood

  /** Both directions of every edge. */
  ghost function Neighbours(edges: seq<Edge>): Edges<string> {
    (set i | 0 <= i < |edges| :: (edges[i].from, edges[i].to)) +
      (set i | 0 <= i < |edges| :: (edges[i].to, edges[i].from))
  }

  /** The links with both ends in a selection. */
  ghost function Inside<V(!new)>(links: Edges<V>, selected: set<V>): Edges<V> {
    set e | e in links && e.0 in selected && e.1 in selected
  }

  lemma {:induction false} MoreLinks<V(!new)>(few: Edges<V>, many: Edges<V>, seeds: set<V>, n: nat)
    requires few <= many
    ensures Ball(few, seeds, n) <= Ball(many, seeds, n)
  {
    if n > 0 { MoreLinks(few, many, seeds, n - 1); }
  }

  /** A selection that is a whole ball; everything behind the frontier has been followed. */
  ghost predicate WholeBall<V(!new)>(links: Edges<V>, seeds: set<V>, n: nat, selected: set<V>, frontier: set<V>) {
    && selected == Ball(links, seeds, n) && frontier <= selected
    && forall e :: e in links && e.0 in selected && e.0 !in frontier ==> e.1 in selected
  }

  /** Every selected node reaches a seed inside the selection within `n` steps. */
  ghost predicate Reaches<V(!new)>(links: Edges<V>, seeds: set<V>, n: nat, selected: set<V>) {
    seeds <= selected <= Ball(Inside(links, selected), seeds, n)
  }

  /** What one round finds: the neighbours of the frontier that are not selected yet. */
  ghost function Found<V(!new)>(links: Edges<V>, selected: set<V>, frontier: set<V>): set<V> {
    Targets(links, frontier) - selected
  }

  lemma FoundCompletes<V(!new)>(links: Edges<V>, seeds: set<V>, n: nat, selected: set<V>, frontier: set<V>)
    requires WholeBall(links, seeds, n, selected, frontier)
    ensures selected + Found(links, selected, frontier) == Ball(links, seeds, n + 1)
    ensures WholeBall(links, seeds, n + 1, selected + Found(links, selected, frontier),
      Found(links, selected, frontier))
  {
    var next := Found(links, selected, frontier);
    forall x | x in Targets(links, selected) ensures x in selected + next {
      var e :| e in links && e.0 in selected && e.1 == x;
      if e.0 in frontier { assert x in Targets(links, frontier); }
    }
    forall x | x in next ensures x in Targets(links, selected) {
      var e :| e in links && e.0 in frontier && e.1 == x;
    }
    forall e | e in links && e.0 in selected + next && e.0 !in next ensures e.1 in selected + next {
      assert e.1 in Targets(links, selected);
    }
  }

  /** Some of what a round finds keeps every selected node connected to a seed. */
  lemma SomeReach<V(!new)>(links: Edges<V>, seeds: set<V>, n: nat, selected: set<V>, frontier: set<V>, some: set<V>)
    requires Reaches(links, seeds, n, selected) && frontier <= selected && some <= Found(links, selected, frontier)
    ensures Reaches(links, seeds, n + 1, selected + some)
  {
    var few, many := Inside(links, selected), Inside(links, selected + some);
    MoreLinks(few, many, seeds, n);
    BallGrows(many, seeds, n, n + 1);
    forall x | x in some ensures x in Ball(many, seeds, n + 1) {
      var e :| e in links && e.0 in frontier && e.1 == x;
      assert (e.0, x) in many;
      BallStep(many, seeds, n, e.0, x);
    }
  }

  lemma NoFrontier<V(!new)>(links: Edges<V>, seeds: set<V>, n: nat, limit: nat, selected: set<V>)
    requires WholeBall(links, seeds, n, selected, {}) && n <= limit
    ensures selected == Ball(links, seeds, limit)
  {
    forall x | x in Targets(links, selected) ensures x in selected {
      var e :| e in links && e.0 in selected && e.1 == x;
    }
    BallStops(links, seeds, n, limit);
  }

  /** `selected` is cut from the ball layer by layer. */
  ghost predicate Layered<V(!new)>(links: Edges<V>, seeds: set<V>, maxDepth: nat, selected: set<V>, d: nat) {
    d <= maxDepth && Ball(links, seeds, d) <= selected
      && (selected == Ball(links, seeds, maxDepth) || selected <= Ball(links, seeds, d + 1))
  }

  /** What the selection is at the end: connected, nearest first, and of the right size. With more
      seeds than `maxNodes` it is the seeds, which the cap does not cut. */
  ghost predicate Selection<V(!new)>(links: Edges<V>, seeds: set<V>, maxDepth: nat, maxNodes: nat, selected: set<V>) {
    var size := |Ball(links, seeds, maxDepth)|;
    && Reaches(links, seeds, maxDepth, selected)
    && selected <= Ball(links, seeds, maxDepth)
    && |selected| == (if |seeds| > maxNodes then |seeds| else if size <= maxNodes then size else maxNodes)
    && exists d :: Layered(links, seeds, maxDepth, selected, d)
  }

  lemma SubsetSize<T>(a: set<T>, b: set<T>)
    requires a <= b
    ensures |a| <= |b| && (|a| == |b| ==> a == b)
  {
    assert b == a + (b - a);
  }

  /** The sizes a selection can have decide what it is. */
  lemma SelectionSize<V(!new)>(links: Edges<V>, seeds: set<V>, maxDepth: nat, maxNodes: nat, selected: set<V>)
    requires Selection(links, seeds, maxDepth, maxNodes, selected)
    ensures |seeds| >= maxNodes ==> selected == seeds
    ensures |seeds| <= maxNodes && |Ball(links, seeds, maxDepth)| <= maxNodes ==>
      selected == Ball(links, seeds, maxDepth)
  {
    SubsetSize(seeds, selected);
    SubsetSize(selected, Ball(links, seeds, maxDepth));
  }

  /** The loop stops with a whole ball. */
  lemma StopsWhole<V(!new)>(links: Edges<V>, seeds: set<V>, maxDepth: nat, maxNodes: nat, n: nat, selected: set<V>,
                            frontier: set<V>)
    requires WholeBall(links, seeds, n, selected, frontier) && Reaches(links, seeds, n, selected) && n <= maxDepth
    requires n == maxDepth || frontier == {}
    requires |selected| <= maxNodes || selected == seeds
    ensures Selection(links, seeds, maxDepth, maxNodes, selected)
  {
    assert selected == Ball(links, seeds, maxDepth) by {
      if n < maxDepth { NoFrontier(links, seeds, n, maxDepth, selected); }
    }
    assert Reaches(links, seeds, maxDepth, selected) by { BallGrows(Inside(links, selected), seeds, n, maxDepth); }
    SubsetSize(seeds, selected);
    assert Layered(links, seeds, maxDepth, selected, maxDepth);
  }

  /** The loop stops at the cap, perhaps in the middle of a round. */
  lemma StopsCut<V(!new)>(links: Edges<V>, seeds: set<V>, maxDepth: nat, maxNodes: nat, n: nat, before: set<V>,
                          frontier: set<V>, some: set<V>)
    requires WholeBall(links, seeds, n, before, frontier) && Reaches(links, seeds, n, before) && n < maxDepth
    requires some <= Found(links, before, frontier)
    requires |before + some| == maxNodes || (some == {} && before == seeds && |seeds| > maxNodes)
    ensures Selection(links, seeds, maxDepth, maxNodes, before + some)
  {
    var selected := before + some;
    assert selected <= Ball(links, seeds, n + 1) by { FoundCompletes(links, seeds, n, before, frontier); }
    assert selected <= Ball(links, seeds, maxDepth) by { BallGrows(links, seeds, n + 1, maxDepth); }
    assert Reaches(links, seeds, maxDepth, selected) by {
      SomeReach(links, seeds, n, before, frontier, some);
      BallGrows(Inside(links, selected), seeds, n + 1, maxDepth);
    }
    SubsetSize(seeds, selected);
    SubsetSize(selected, Ball(links, seeds, maxDepth));
    assert Layered(links, seeds, maxDepth, selected, n);
  }

  function Members(ids: seq<string>): set<string> {
    set id | id in ids
  }

  /** One of the first `n` edges joins the frontier to `x`. */
  ghost predicate AcrossEdge(edges: seq<Edge>, n: nat, frontier: seq<string>, x: string)
    requires n <= |edges|
  {
    exists i :: 0 <= i < n && ((edges[i].from in frontier && x == edges[i].to)
      || (edges[i].to in frontier && x == edges[i].from))
  }

  /** One scan of the edges: the unselected other ends of edges at the frontier. */
  method ScanEdges(edges: seq<Edge>, frontier: seq<string>, selected: set<string>) returns (next: set<string>)
    ensures next == Found(Neighbours(edges), selected, Members(frontier))
  {
    next := {};
    for n := 0 to |edges|
      invariant forall x :: x in next <==> (x !in selected && AcrossEdge(edges, n, frontier, x))
    {
      if edges[n].from in frontier && edges[n].to !in selected { next := next + {edges[n].to}; }
      if edges[n].to in frontier && edges[n].from !in selected { next := next + {edges[n].from}; }
    }
    ScanIsFound(edges, frontier, selected, next);
  }

  lemma ScanIsFound(edges: seq<Edge>, frontier: seq<string>, selected: set<string>, next: set<string>)
    requires forall x :: x in next <==> (x !in selected && AcrossEdge(edges, |edges|, frontier, x))
    ensures next == Found(Neighbours(edges), selected, Members(frontier))
  {
    var links, front := Neighbours(edges), Members(frontier);
    forall x ensures x in Targets(links, front) <==> AcrossEdge(edges, |edges|, frontier, x) {
      if x in Targets(links, front) {
        var e :| e in links && e.0 in front && e.1 == x;
        var i :| 0 <= i < |edges| && (e == (edges[i].from, edges[i].to) || e == (edges[i].to, edges[i].from));
      }
      if i :| 0 <= i < |edges|
              && ((edges[i].from in frontier && x == edges[i].to) || (edges[i].to in frontier && x == edges[i].from)) {
        var e := if edges[i].from in frontier && x == edges[i].to then (edges[i].from, edges[i].to)
          else (edges[i].to, edges[i].from);
        assert e in links && e.0 in front && e.1 == x;
      }
    }
  }

  /** The depth loop of `frappeCustomizationNeighborhood`. */
  method SelectNodes(edges: seq<Edge>, seeds: set<string>, maxDepth: nat, maxNodes: nat) returns (selected: set<string>)
    requires maxNodes > 0
    ensures Selection(Neighbours(edges), seeds, maxDepth, maxNodes, selected)
  {
    ghost var links := Neighbours(edges);
    var frontier := SortedKeys(seeds);
    selected := seeds;
    var depth := 0;
    assert Members(frontier) == seeds;
    while depth < maxDepth && frontier != []
      invariant depth <= maxDepth
      invariant WholeBall(links, seeds, depth, selected, Members(frontier)) && Reaches(links, seeds, depth, selected)
      invariant |selected| < maxNodes || selected == seeds
      decreases maxDepth - depth
    {
      var next := ScanEdges(edges, frontier, selected);
      var room := if maxNodes >= |selected| then maxNodes - |selected| else 0;
      var order := SortedKeys(next);
      var taken := if room < |order| then order[..room] else order;
      var some := Members(taken);
      assert |some| == (if room < |next| then room else |next|) && some <= next
        && (|next| <= room ==> some == next) by {
        TakenSize(next, room);
      }
      AfterRound(links, seeds, maxDepth, maxNodes, depth, selected, Members(frontier), some);
      selected := selected + some;
      if |selected| >= maxNodes {
        return;
      }
      frontier := taken;
      depth := depth + 1;
    }
    StopsWhole(links, seeds, maxDepth, maxNodes, depth, selected, Members(frontier));
  }

  /** One round, with as much of what it finds as there is room for. */
  lemma AfterRound<V(!new)>(links: Edges<V>, seeds: set<V>, maxDepth: nat, maxNodes: nat, n: nat, before: set<V>,
                            frontier: set<V>, some: set<V>)
    requires WholeBall(links, seeds, n, before, frontier) && Reaches(links, seeds, n, before) && n < maxDepth
    requires |before| < maxNodes || before == seeds
    requires some <= Found(links, before, frontier)
    requires var room := if maxNodes >= |before| then maxNodes - |before| else 0;
      var found := |Found(links, before, frontier)|;
      |some| == (if room < found then room else found) && (found <= room ==> some == Found(links, before, frontier))
    ensures |before + some| >= maxNodes ==> Selection(links, seeds, maxDepth, maxNodes, before + some)
    ensures |before + some| < maxNodes ==>
      WholeBall(links, seeds, n + 1, before + some, some) && Reaches(links, seeds, n + 1, before + some)
  {
    assert |before + some| == |before| + |some|;
    if |before + some| >= maxNodes {
      StopsCut(links, seeds, maxDepth, maxNodes, n, before, frontier, some);
    } else {
      FoundCompletes(links, seeds, n, before, frontier);
      SomeReach(links, seeds, n, before, frontier, some);
    }
  }

  lemma TakenSize(next: set<string>, room: nat)
    ensures var order := SortedKeys(next); var taken := if room < |order| then order[..room] else order;
      var some := Members(taken);
      some <= next && |some| == (if room < |next| then room else |next|) && (|next| <= room ==> some == next)
  {
    var order := SortedKeys(next);
    var taken := if room < |order| then order[..room] else order;
    forall i, j | 0 <= i < j < |taken| ensures taken[i] != taken[j] { LessTotal(taken[i], taken[j]); }
    DistinctSize(taken);
  }

  lemma {:induction false} DistinctSize(s: seq<string>)
    requires forall i, j :: 0 <= i < j < |s| ==> s[i] != s[j]
    ensures |set x | x in s| == |s|
  {
    if s != [] {
      var n := |s| - 1;
      DistinctSize(s[..n]);
      assert (set x | x in s) == (set x | x in s[..n]) + {s[n]};
      assert s[n] !in s[..n];
    }
  }

  // ----------------------------------------------------------- the whole function

  function NodesIn(nodes: seq<Node>, selected: set<string>): (r: seq<Node>)
    ensures |r| <= |nodes| && forall x :: x in r <==> x in nodes && x.id in selected
  {
    if nodes == [] then [] else (if nodes[0].id in selected then [nodes[0]] else []) + NodesIn(nodes[1..], selected)
  }

  function EdgesIn(edges: seq<Edge>, selected: set<string>): (r: seq<Edge>)
    ensures |r| <= |edges| && forall x :: x in r <==> x in edges && x.from in selected && x.to in selected
  {
    if edges == [] then []
    else
      (if edges[0].from in selected && edges[0].to in selected then [edges[0]] else [])
      + EdgesIn(edges[1..], selected)
  }

  /** The nodes of a selection and the edges between them. */
  function Induced(graph: Graph, selected: set<string>): Graph {
    Graph(graph.scope, NodesIn(graph.nodes, selected), EdgesIn(graph.edges, selected))
  }

  lemma {:induction false} NodesInSorted(nodes: seq<Node>, selected: set<string>)
    requires NodesSorted(nodes)
    ensures NodesSorted(NodesIn(nodes, selected))
  {
    if nodes != [] {
      NodesInSorted(nodes[1..], selected);
      var rest := NodesIn(nodes[1..], selected);
      forall j | 0 <= j < |rest| ensures Less(nodes[0].id, rest[j].id) {
        assert rest[j] in nodes[1..];
        var k :| 0 <= k < |nodes[1..]| && nodes[1..][k] == rest[j];
        assert nodes[k + 1] == rest[j];
      }
    }
  }

  lemma {:induction false} EdgesInSorted(edges: seq<Edge>, selected: set<string>)
    requires EdgesSorted(edges)
    ensures EdgesSorted(EdgesIn(edges, selected))
  {
    if edges != [] {
      EdgesInSorted(edges[1..], selected);
      var rest := EdgesIn(edges[1..], selected);
      forall j | 0 <= j < |rest| ensures Less(edges[0].id, rest[j].id) {
        assert rest[j] in edges[1..];
        var k :| 0 <= k < |edges[1..]| && edges[1..][k] == rest[j];
        assert edges[k + 1] == rest[j];
      }
    }
  }

  /** Lists sorted by id with the same elements are the same list. */
  lemma {:induction false} KeyedUnique<T(!new)>(a: seq<T>, b: seq<T>, id: T -> string)
    requires forall i, j :: 0 <= i < j < |a| ==> Less(id(a[i]), id(a[j]))
    requires forall i, j :: 0 <= i < j < |b| ==> Less(id(b[i]), id(b[j]))
    requires forall x :: x in a <==> x in b
    ensures a == b
    decreases |a|
  {
    if a != [] { assert a[0] in b; }
    if b != [] { assert b[0] in a; }
    if a != [] && b != [] {
      var i :| 0 <= i < |b| && b[i] == a[0];
      var j :| 0 <= j < |a| && a[j] == b[0];
      LessTotal(id(a[0]), id(b[0]));
      LessTotal(id(a[0]), id(a[0]));
      assert a[0] == b[0];
      forall x ensures x in a[1..] <==> x in b[1..] {
        if x in a[1..] {
          var k :| 0 <= k < |a[1..]| && a[1..][k] == x;
          assert a[k + 1] == x && x in b && x != b[0];
          var l :| 0 <= l < |b| && b[l] == x;
          assert b[1..][l - 1] == x;
        }
        if x in b[1..] {
          var k :| 0 <= k < |b[1..]| && b[1..][k] == x;
          assert b[k + 1] == x && x in a && x != a[0];
          var l :| 0 <= l < |a| && a[l] == x;
          assert a[1..][l - 1] == x;
        }
      }
      KeyedUnique(a[1..], b[1..], id);
    }
  }

  /** The induced part of a built graph is accepted by the builder and comes back unchanged. */
  lemma InducedBuildable(graph: Graph, selected: set<string>)
    requires Built(graph) && NodesIn(graph.nodes, selected) != []
    ensures var g := Induced(graph, selected); Buildable(g.nodes, g.edges) && Built(g)
  {
    var g := Induced(graph, selected);
    NodesInSorted(graph.nodes, selected);
    EdgesInSorted(graph.edges, selected);
    forall i | 0 <= i < |g.nodes| ensures g.nodes[i].scope == graph.scope { assert g.nodes[i] in graph.nodes; }
    forall id | id in NodeIds(graph.nodes) && id in selected ensures id in NodeIds(g.nodes) {
      var i :| 0 <= i < |graph.nodes| && graph.nodes[i].id == id;
      assert graph.nodes[i] in g.nodes;
    }
    forall i | 0 <= i < |g.edges|
      ensures g.edges[i].scope == graph.scope && g.edges[i].from in NodeIds(g.nodes)
        && g.edges[i].to in NodeIds(g.nodes)
    {
      assert g.edges[i] in graph.edges;
    }
    forall i, j | 0 <= i < j < |g.nodes|
      ensures g.nodes[i].id != g.nodes[j].id { LessTotal(g.nodes[i].id, g.nodes[j].id); }
    forall i, j | 0 <= i < j < |g.edges|
      ensures g.edges[i].id != g.edges[j].id { LessTotal(g.edges[i].id, g.edges[j].id); }
  }

  datatype Failure = BadDepth | BadCap | NothingVisible

  /** `frappeCustomizationNeighborhood`: the induced graph of a bounded, connected selection around
      the requested nodes that exist. */
  method FrappeCustomizationNeighborhood(graph: Graph, nodeIds: seq<string>, maxDepth: int, maxNodes: int)
    returns (r: Result<Graph, Failure>, ghost selected: set<string>)
    requires Built(graph)
    ensures var seeds := set id | id in nodeIds && id in NodeIds(graph.nodes);
      && (r == Err(BadDepth) <==> !(0 <= maxDepth <= 8))
      && (r == Err(BadCap) <==> 0 <= maxDepth <= 8 && !(1 <= maxNodes <= 2_000))
      && (r == Err(NothingVisible) <==> 0 <= maxDepth <= 8 && 1 <= maxNodes <= 2_000 && seeds == {})
      && (r.Ok? ==> r.value == Induced(graph, selected) && NodeIds(r.value.nodes) == selected
                    && Selection(Neighbours(graph.edges), seeds, maxDepth, maxNodes, selected))
  {
    selected := {};
    if !(0 <= maxDepth <= 8) { return Err(BadDepth), selected; }
    if !(1 <= maxNodes <= 2_000) { return Err(BadCap), selected; }
    var available := NodeIds(graph.nodes);
    var seeds := set id | id in nodeIds && id in available;
    var chosen := SelectNodes(graph.edges, seeds, maxDepth, maxNodes);
    selected := chosen;
    ChosenAvailable(graph, seeds, maxDepth, maxNodes, chosen);
    if NodesIn(graph.nodes, chosen) == [] {
      return Err(NothingVisible), selected;
    }
    var part := InducedGraph(graph, chosen);
    r := Ok(part);
  }

  /** The last step: the builder applied to the selected nodes and the edges between them. */
  method InducedGraph(graph: Graph, selected: set<string>) returns (r: Graph)
    requires Built(graph) && NodesIn(graph.nodes, selected) != []
    ensures r == Induced(graph, selected)
  {
    var part := Induced(graph, selected);
    InducedBuildable(graph, selected);
    var built := BuildFrappeCustomizationGraph(part.nodes, part.edges);
    r := built.value;
    KeyedUnique(r.nodes, part.nodes, (x: Node) => x.id);
    KeyedUnique(r.edges, part.edges, (x: Edge) => x.id);
    assert r.nodes[0] in graph.nodes;
  }

  lemma ChosenAvailable(graph: Graph, seeds: set<string>, maxDepth: nat, maxNodes: nat, selected: set<string>)
    requires Built(graph) && seeds <= NodeIds(graph.nodes)
    requires Selection(Neighbours(graph.edges), seeds, maxDepth, maxNodes, selected)
    ensures NodeIds(NodesIn(graph.nodes, selected)) == selected && (selected == {} <==> seeds == {})
    ensures NodesIn(graph.nodes, selected) == [] <==> selected == {}
  {
    BallAvailable(graph, seeds, maxDepth);
    InducedIds(graph, selected);
    NoSeedsNothing(Neighbours(graph.edges), maxDepth);
    var part := NodesIn(graph.nodes, selected);
    if part != [] { assert part[0].id in NodeIds(part); }
  }

  lemma {:induction false} NoSeedsNothing(links: Edges<string>, n: nat)
    ensures Ball(links, {}, n) == {}
  {
    if n > 0 { NoSeedsNothing(links, n - 1); }
  }

  lemma {:induction false} BallAvailable(graph: Graph, seeds: set<string>, n: nat)
    requires Built(graph) && seeds <= NodeIds(graph.nodes)
    ensures Ball(Neighbours(graph.edges), seeds, n) <= NodeIds(graph.nodes)
  {
    if n > 0 { BallAvailable(graph, seeds, n - 1); }
  }

  lemma InducedIds(graph: Graph, selected: set<string>)
    requires selected <= NodeIds(graph.nodes)
    ensures NodeIds(Induced(graph, selected).nodes) == selected
  {
    var part := NodesIn(graph.nodes, selected);
    forall id | id in selected ensures id in NodeIds(part) {
      var i :| 0 <= i < |graph.nodes| && graph.nodes[i].id == id;
      assert graph.nodes[i] in part;
    }
    forall i | 0 <= i < |part| ensures part[i].id in selected { assert part[i] in part; }
  }

  /** The cap bounds what is added, not the requested nodes: with more visible nodes requested than
      `maxNodes` the result has exactly those. */
  lemma SeedsExceedCap(links: Edges<string>, seeds: set<string>, maxDepth: nat, maxNodes: nat, selected: set<string>)
    requires Selection(links, seeds, maxDepth, maxNodes, selected) && |seeds| > maxNodes
    ensures selected == seeds && |selected| > maxNodes
  {
    SelectionSize(links, seeds, maxDepth, maxNodes, selected);
  }
}
