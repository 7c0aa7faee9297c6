/** The default topology (systemconfig.go): one client feeding a load
    balancer that spreads the requests over three servers. */
module Topology {
  import opened Wire
  import opened Servers
  import opened Graph

  /** The types of the five default nodes, in the order they are added. */
  const Kinds: seq<string> := [ClientType, LoadBalancerType, ServerType, ServerType, ServerType]

  /** Where each default node is drawn (systemconfig.go:5-32). */
  const Layout: seq<Position> :=
    [Position(400, 425), Position(700, 425), Position(1050, 225), Position(1050, 425), Position(1050, 625)]

  /** The wiring of a node no edge has been attached to. */
  const Unwired: Wiring := Wiring(Unset, Unset, [])

  /** One AddNode followed by SetPosition on the new node (systemconfig.go:4-8). */
  method Place(system: System, nodeType: string, nodeId: string, p: Position) returns (n: Node)
    requires system.Valid()
    requires nodeType == ClientType || nodeType == ServerType || nodeType == LoadBalancerType
    requires nodeId !in system.nodeStore
    modifies system`nodeStore
    ensures system.Valid()
    ensures system.nodeStore == old(system.nodeStore)[nodeId := n]
    ensures system.edgeStore == old(system.edgeStore)
    ensures Id(n) == nodeId && Kind(n) == nodeType && fresh(Footprint(n))
    ensures n.ClientNode? <==> nodeType == ClientType
    ensures n.ServerNode? <==> nodeType == ServerType
    ensures ViewOf(n) == View(p, Unwired, ResetCounters(CountersOf(n)))
    ensures old(system.WellWired()) ==> system.WellWired()
  {
    n := system.AddNode(nodeType, nodeId);
    SetNodePosition(n, p);
    assert n.ServerNode? ==> n.server.Valid();
  }

  /** The nodes and edges DefaultSystem adds (systemconfig.go:4-37). */
  function WithDefaultNodes(store: map<string, Node>, nodeIds: seq<string>, nodes: seq<Node>): map<string, Node>
    requires |nodeIds| == 5 && |nodes| == 5
  {
    store[nodeIds[0] := nodes[0]][nodeIds[1] := nodes[1]][nodeIds[2] := nodes[2]]
         [nodeIds[3] := nodes[3]][nodeIds[4] := nodes[4]]
  }

  function WithDefaultEdges(edges: map<string, Edge>, nodeIds: seq<string>, edgeIds: seq<string>): map<string, Edge>
    requires |nodeIds| == 5 && |edgeIds| == 4
  {
    edges[edgeIds[0] := Edge(edgeIds[0], nodeIds[0], nodeIds[1])]
         [edgeIds[1] := Edge(edgeIds[1], nodeIds[1], nodeIds[2])]
         [edgeIds[2] := Edge(edgeIds[2], nodeIds[1], nodeIds[3])]
         [edgeIds[3] := Edge(edgeIds[3], nodeIds[1], nodeIds[4])]
  }

  /** Every default edge runs from a sender to a receiver, so a graph that
      InitEdges could wire still can be after DefaultSystem. */
  lemma DefaultWired(store: map<string, Node>, edges: map<string, Edge>,
                     nodeIds: seq<string>, edgeIds: seq<string>, nodes: seq<Node>)
    requires Wired(store, edges)
    requires |nodeIds| == 5 && |edgeIds| == 4 && |nodes| == 5
    requires forall i :: 0 <= i < 5 ==> nodeIds[i] !in store
    requires forall i, j :: 0 <= i < j < 5 ==> nodeIds[i] != nodeIds[j]
    requires nodes[0].ClientNode? && nodes[1].BalancerNode?
    requires nodes[2].ServerNode? && nodes[3].ServerNode? && nodes[4].ServerNode?
    ensures Wired(WithDefaultNodes(store, nodeIds, nodes), WithDefaultEdges(edges, nodeIds, edgeIds))
  {
    var store' := WithDefaultNodes(store, nodeIds, nodes);
    forall i | 0 <= i < 5
      ensures nodeIds[i] in store' && store'[nodeIds[i]] == nodes[i]
    {
    }
    forall e | e in edges
      ensures edges[e].sourceId in store' && store'[edges[e].sourceId] == store[edges[e].sourceId]
      ensures edges[e].targetId in store' && store'[edges[e].targetId] == store[edges[e].targetId]
    {
    }
  }

  /** Node i of the default layout: its ID, its type, where it is drawn, and
      no channels attached yet. */
  ghost predicate Placed(n: Node, nodeId: string, i: nat)
    requires i < 5
    reads Obj(n)
  {
    && Id(n) == nodeId && Kind(n) == Kinds[i] && PositionOf(n) == Layout[i]
    && WiringOf(n) == Unwired
  }

  /** The first two AddNode/SetPosition pairs of DefaultSystem: the client
      and the load balancer (systemconfig.go:4-14). */
  method AddFrontNodes(system: System, nodeIds: seq<string>) returns (client: Node, loadBalancer: Node)
    requires system.Valid()
    requires |nodeIds| == 5 && nodeIds[0] != nodeIds[1]
    requires nodeIds[0] !in system.nodeStore && nodeIds[1] !in system.nodeStore
    modifies system`nodeStore
    ensures system.Valid()
    ensures system.nodeStore == old(system.nodeStore)[nodeIds[0] := client][nodeIds[1] := loadBalancer]
    ensures system.edgeStore == old(system.edgeStore)
    ensures Placed(client, nodeIds[0], 0) && fresh(Footprint(client)) && client.ClientNode?
    ensures Placed(loadBalancer, nodeIds[1], 1) && fresh(Footprint(loadBalancer)) && loadBalancer.BalancerNode?
  {
    client := Place(system, ClientType, nodeIds[0], Layout[0]);
    loadBalancer := Place(system, LoadBalancerType, nodeIds[1], Layout[1]);
  }

  /** The three server AddNode/SetPosition pairs of DefaultSystem (systemconfig.go:16-32). */
  method AddServerNodes(system: System, nodeIds: seq<string>) returns (server1: Node, server2: Node, server3: Node)
    requires system.Valid()
    requires |nodeIds| == 5 && nodeIds[2] != nodeIds[3] && nodeIds[2] != nodeIds[4] && nodeIds[3] != nodeIds[4]
    requires nodeIds[2] !in system.nodeStore && nodeIds[3] !in system.nodeStore && nodeIds[4] !in system.nodeStore
    modifies system`nodeStore
    ensures system.Valid()
    ensures system.nodeStore == old(system.nodeStore)[nodeIds[2] := server1][nodeIds[3] := server2][nodeIds[4] := server3]
    ensures system.edgeStore == old(system.edgeStore)
    ensures Placed(server1, nodeIds[2], 2) && fresh(Footprint(server1)) && server1.ServerNode?
    ensures Placed(server2, nodeIds[3], 3) && fresh(Footprint(server2)) && server2.ServerNode?
    ensures Placed(server3, nodeIds[4], 4) && fresh(Footprint(server3)) && server3.ServerNode?
  {
    server1 := Place(system, ServerType, nodeIds[2], Layout[2]);
    server2 := Place(system, ServerType, nodeIds[3], Layout[3]);
    server3 := Place(system, ServerType, nodeIds[4], Layout[4]);
  }

  /** The four AddEdge calls of DefaultSystem (systemconfig.go:34-37). */
  method AddDefaultEdges(system: System, nodeIds: seq<string>, edgeIds: seq<string>)
    requires system.Valid()
    requires |nodeIds| == 5 && |edgeIds| == 4
    requires forall i, j :: 0 <= i < j < |edgeIds| ==> edgeIds[i] != edgeIds[j]
    requires forall i :: 0 <= i < |edgeIds| ==> edgeIds[i] !in system.edgeStore
    modifies system`edgeStore
    ensures system.Valid()
    ensures system.edgeStore == WithDefaultEdges(old(system.edgeStore), nodeIds, edgeIds)
  {
    system.AddEdge(nodeIds[0], nodeIds[1], edgeIds[0]);
    system.AddEdge(nodeIds[1], nodeIds[2], edgeIds[1]);
    system.AddEdge(nodeIds[1], nodeIds[3], edgeIds[2]);
    system.AddEdge(nodeIds[1], nodeIds[4], edgeIds[3]);
  }

  /** DefaultSystem (systemconfig.go:3-40), with the fresh IDs AddNode and
      AddEdge would draw passed in, in the order they are drawn; the nodes it
      creates are named by the ghost result. */
  method DefaultSystem(system: System, nodeIds: seq<string>, edgeIds: seq<string>)
    returns (r: System, ghost nodes: seq<Node>)
    requires system.Valid()
    requires |nodeIds| == 5 && |edgeIds| == 4
    requires forall i, j :: 0 <= i < j < |nodeIds| ==> nodeIds[i] != nodeIds[j]
    requires forall i, j :: 0 <= i < j < |edgeIds| ==> edgeIds[i] != edgeIds[j]
    requires forall i :: 0 <= i < |nodeIds| ==> nodeIds[i] !in system.nodeStore
    requires forall i :: 0 <= i < |edgeIds| ==> edgeIds[i] !in system.edgeStore
    modifies system`nodeStore, system`edgeStore
    ensures r == system && r.Valid()
    ensures |nodes| == 5 && r.nodeStore == WithDefaultNodes(old(system.nodeStore), nodeIds, nodes)
    ensures Placed(nodes[0], nodeIds[0], 0) && fresh(Footprint(nodes[0]))
    ensures Placed(nodes[1], nodeIds[1], 1) && fresh(Footprint(nodes[1]))
    ensures Placed(nodes[2], nodeIds[2], 2) && fresh(Footprint(nodes[2]))
    ensures Placed(nodes[3], nodeIds[3], 3) && fresh(Footprint(nodes[3]))
    ensures Placed(nodes[4], nodeIds[4], 4) && fresh(Footprint(nodes[4]))
    ensures nodes[0].ClientNode? && nodes[1].BalancerNode?
    ensures nodes[2].ServerNode? && nodes[3].ServerNode? && nodes[4].ServerNode?
    ensures r.edgeStore == WithDefaultEdges(old(system.edgeStore), nodeIds, edgeIds)
    ensures old(system.WellWired()) ==> r.WellWired()
  {
    var client, loadBalancer := AddFrontNodes(system, nodeIds);
    var server1, server2, server3 := AddServerNodes(system, nodeIds);
    nodes := [client, loadBalancer, server1, server2, server3];
    AddDefaultEdges(system, nodeIds, edgeIds);
    r := system;
    if old(system.WellWired()) {
      DefaultWired(old(system.nodeStore), old(system.edgeStore), nodeIds, edgeIds, nodes);
    }
  }

  /** Default edge j: the client feeds the load balancer, which feeds server j. */
  function DefaultEdge(nodeIds: seq<string>, edgeIds: seq<string>, j: nat): (e: Edge)
    requires |nodeIds| == 5 && |edgeIds| == 4 && j < 4
    ensures e.id == edgeIds[j] && e.targetId == nodeIds[j + 1]
  {
    Edge(edgeIds[j], if j == 0 then nodeIds[0] else nodeIds[1], nodeIds[j + 1])
  }

  /** Edge ID j of a default system is wired by exactly one link, and that
      link carries default edge j. */
  lemma FindLink(nodeIds: seq<string>, edgeIds: seq<string>, links: seq<Link>, j: nat) returns (i: nat)
    requires |nodeIds| == 5 && |edgeIds| == 4 && j < 4
    requires Enumerates(links, WithDefaultEdges(map[], nodeIds, edgeIds))
    requires forall a, b :: 0 <= a < b < |edgeIds| ==> edgeIds[a] != edgeIds[b]
    ensures i < |links| && links[i].edge == DefaultEdge(nodeIds, edgeIds, j)
    ensures forall i' :: 0 <= i' < |links| && links[i'].edge.id == edgeIds[j] ==> i' == i
  {
    var edges := WithDefaultEdges(map[], nodeIds, edgeIds);
    assert edgeIds[j] in edges;
    i :| 0 <= i < |links| && links[i].edge.id == edgeIds[j];
    forall i' | 0 <= i' < |links| && links[i'].edge.id == edgeIds[j]
      ensures i' == i
    {
      assert !(i < i') && !(i' < i);
    }
  }

  /** Every link of a default system carries one of the four default edges. */
  lemma LinkIsDefault(nodeIds: seq<string>, edgeIds: seq<string>, links: seq<Link>, i: nat) returns (j: nat)
    requires |nodeIds| == 5 && |edgeIds| == 4 && i < |links|
    requires Enumerates(links, WithDefaultEdges(map[], nodeIds, edgeIds))
    requires forall a, b :: 0 <= a < b < |edgeIds| ==> edgeIds[a] != edgeIds[b]
    ensures j < 4 && links[i].edge == DefaultEdge(nodeIds, edgeIds, j)
  {
    var edges := WithDefaultEdges(map[], nodeIds, edgeIds);
    assert links[i].edge.id in edges;
    if links[i].edge.id == edgeIds[3] {
      j := 3;
    } else if links[i].edge.id == edgeIds[2] {
      j := 2;
    } else if links[i].edge.id == edgeIds[1] {
      j := 1;
    } else {
      j := 0;
    }
  }

  /** idx[j] is the link that wires default edge j, and there are no other links. */
  ghost predicate IndexesLinks(nodeIds: seq<string>, edgeIds: seq<string>, links: seq<Link>, idx: seq<nat>)
    requires |nodeIds| == 5 && |edgeIds| == 4
  {
    && |idx| == 4
    && (forall j :: 0 <= j < 4 ==> idx[j] < |links| && links[idx[j]].edge == DefaultEdge(nodeIds, edgeIds, j))
    && (forall i :: 0 <= i < |links| ==> i in idx)
  }

  /** With i0 .. i3 the only links of the four default edges, there are no other links. */
  lemma OnlyLinks(nodeIds: seq<string>, edgeIds: seq<string>, links: seq<Link>, i0: nat, i1: nat, i2: nat, i3: nat)
    requires |nodeIds| == 5 && |edgeIds| == 4
    requires Enumerates(links, WithDefaultEdges(map[], nodeIds, edgeIds))
    requires forall a, b :: 0 <= a < b < |edgeIds| ==> edgeIds[a] != edgeIds[b]
    requires forall i :: 0 <= i < |links| && links[i].edge.id == edgeIds[0] ==> i == i0
    requires forall i :: 0 <= i < |links| && links[i].edge.id == edgeIds[1] ==> i == i1
    requires forall i :: 0 <= i < |links| && links[i].edge.id == edgeIds[2] ==> i == i2
    requires forall i :: 0 <= i < |links| && links[i].edge.id == edgeIds[3] ==> i == i3
    ensures forall i :: 0 <= i < |links| ==> i in [i0, i1, i2, i3]
  {
    forall i | 0 <= i < |links|
      ensures i in [i0, i1, i2, i3]
    {
      var j := LinkIsDefault(nodeIds, edgeIds, links, i);
    }
  }

  /** The links that wire a default system are exactly one per default edge. */
  lemma IndexLinks(nodeIds: seq<string>, edgeIds: seq<string>, links: seq<Link>) returns (idx: seq<nat>)
    requires |nodeIds| == 5 && |edgeIds| == 4
    requires Enumerates(links, WithDefaultEdges(map[], nodeIds, edgeIds))
    requires forall a, b :: 0 <= a < b < |edgeIds| ==> edgeIds[a] != edgeIds[b]
    ensures IndexesLinks(nodeIds, edgeIds, links, idx)
  {
    var i0 := FindLink(nodeIds, edgeIds, links, 0);
    var i1 := FindLink(nodeIds, edgeIds, links, 1);
    var i2 := FindLink(nodeIds, edgeIds, links, 2);
    var i3 := FindLink(nodeIds, edgeIds, links, 3);
    OnlyLinks(nodeIds, edgeIds, links, i0, i1, i2, i3);
    idx := [i0, i1, i2, i3];
    assert idx[0] == i0 && idx[1] == i1 && idx[2] == i2 && idx[3] == i3;
  }

  /** The client's outbound pair and the load balancer's inbound pair are
      both the pair of the client-to-load-balancer edge. */
  lemma ClientFeedsBalancer(nodeIds: seq<string>, edgeIds: seq<string>, nodes: seq<Node>, links: seq<Link>, idx: seq<nat>)
    requires |nodeIds| == 5 && |edgeIds| == 4 && |nodes| == 5
    requires forall a, b :: 0 <= a < b < |nodeIds| ==> nodeIds[a] != nodeIds[b]
    requires nodes[0].ClientNode? && nodes[1].BalancerNode?
    requires IndexesLinks(nodeIds, edgeIds, links, idx)
    ensures Replay(Unwired, nodes[0], nodeIds[0], links).outbound == ChannelsOf(links[idx[0]].pair)
    ensures Replay(Unwired, nodes[1], nodeIds[1], links).inbound == ChannelsOf(links[idx[0]].pair)
  {
    forall i | 0 <= i < |links| && i != idx[0]
      ensures links[i].edge.sourceId != nodeIds[0] && links[i].edge.targetId != nodeIds[1]
    {
      assert i in idx;
      var j :| 0 <= j < 4 && idx[j] == i;
    }
    ReplayClosedForm(Unwired, nodes[0], nodeIds[0], links);
    ReplayClosedForm(Unwired, nodes[1], nodeIds[1], links);
    LastAtUnique(links, nodeIds[0], true, Unset, idx[0]);
    LastAtUnique(links, nodeIds[1], false, Unset, idx[0]);
  }

  /** Server s receives on the pair of the edge that ends at it. */
  lemma ServerInbound(nodeIds: seq<string>, edgeIds: seq<string>, nodes: seq<Node>, links: seq<Link>, idx: seq<nat>, s: nat)
    requires |nodeIds| == 5 && |edgeIds| == 4 && |nodes| == 5 && 2 <= s < 5
    requires forall a, b :: 0 <= a < b < |nodeIds| ==> nodeIds[a] != nodeIds[b]
    requires nodes[s].ServerNode?
    requires IndexesLinks(nodeIds, edgeIds, links, idx)
    ensures Replay(Unwired, nodes[s], nodeIds[s], links).inbound == ChannelsOf(links[idx[s - 1]].pair)
  {
    forall i | 0 <= i < |links|
      ensures links[i].edge.sourceId != nodeIds[s]
      ensures i != idx[s - 1] ==> links[i].edge.targetId != nodeIds[s]
    {
      assert i in idx;
      var j :| 0 <= j < 4 && idx[j] == i;
    }
    ReplayClosedForm(Unwired, nodes[s], nodeIds[s], links);
    LastAtUnique(links, nodeIds[s], false, Unset, idx[s - 1]);
  }

  /** The load balancer's targets are the pairs of the three edges leaving it. */
  lemma BalancerTargets(nodeIds: seq<string>, edgeIds: seq<string>, nodes: seq<Node>, links: seq<Link>, idx: seq<nat>)
    requires |nodeIds| == 5 && |edgeIds| == 4 && |nodes| == 5
    requires forall a, b :: 0 <= a < b < |nodeIds| ==> nodeIds[a] != nodeIds[b]
    requires forall a, b :: 0 <= a < b < |edgeIds| ==> edgeIds[a] != edgeIds[b]
    requires nodes[1].BalancerNode?
    requires Enumerates(links, WithDefaultEdges(map[], nodeIds, edgeIds))
    requires IndexesLinks(nodeIds, edgeIds, links, idx)
    ensures |Replay(Unwired, nodes[1], nodeIds[1], links).targets| == 3
    ensures forall j :: 1 <= j < 4 ==> links[idx[j]].pair in Replay(Unwired, nodes[1], nodeIds[1], links).targets
  {
    var edges := WithDefaultEdges(map[], nodeIds, edgeIds);
    ReplayClosedForm(Unwired, nodes[1], nodeIds[1], links);
    assert EdgesFrom(edges, nodeIds[1]) == {edgeIds[1], edgeIds[2], edgeIds[3]};
    OutgoingMatchesEdges(links, edges, nodeIds[1]);
    forall j | 1 <= j < 4
      ensures links[idx[j]].pair in Outgoing(links, nodeIds[1])
    {
      InOutgoing(links, nodeIds[1], idx[j]);
    }
  }

  /** Server s receives on the pair of one of the load balancer's targets. */
  lemma ServerFedByBalancer(nodeIds: seq<string>, edgeIds: seq<string>, nodes: seq<Node>, links: seq<Link>, idx: seq<nat>, s: nat)
    returns (t: nat)
    requires |nodeIds| == 5 && |edgeIds| == 4 && |nodes| == 5 && 2 <= s < 5
    requires forall a, b :: 0 <= a < b < |nodeIds| ==> nodeIds[a] != nodeIds[b]
    requires nodes[s].ServerNode?
    requires IndexesLinks(nodeIds, edgeIds, links, idx)
    requires links[idx[s - 1]].pair in Replay(Unwired, nodes[1], nodeIds[1], links).targets
    ensures Replay(Unwired, nodes[s], nodeIds[s], links).inbound == ChannelsOf(links[idx[s - 1]].pair)
    ensures t < |Replay(Unwired, nodes[1], nodeIds[1], links).targets|
    ensures Replay(Unwired, nodes[s], nodeIds[s], links).inbound == ChannelsOf(Replay(Unwired, nodes[1], nodeIds[1], links).targets[t])
  {
    ServerInbound(nodeIds, edgeIds, nodes, links, idx, s);
    var targets := Replay(Unwired, nodes[1], nodeIds[1], links).targets;
    t :| 0 <= t < |targets| && targets[t] == links[idx[s - 1]].pair;
  }

  /** Different default edges are wired with different request queues. */
  lemma DistinctLinks(nodeIds: seq<string>, edgeIds: seq<string>, links: seq<Link>, idx: seq<nat>)
    requires |nodeIds| == 5 && |edgeIds| == 4
    requires forall a, b :: 0 <= a < b < |edgeIds| ==> edgeIds[a] != edgeIds[b]
    requires IndexesLinks(nodeIds, edgeIds, links, idx) && PairsDistinct(links)
    ensures forall a, b :: 0 <= a < b < 4 ==> links[idx[a]].pair.requests != links[idx[b]].pair.requests
  {
    forall a, b | 0 <= a < b < 4
      ensures links[idx[a]].pair.requests != links[idx[b]].pair.requests
    {
      assert links[idx[a]].edge.id != links[idx[b]].edge.id;
      assert idx[a] < idx[b] || idx[b] < idx[a];
    }
  }

  /** The wiring Start gives the default topology: the load balancer gets
      exactly three targets, its inbound pair is the client's outbound pair,
      and each server's inbound pair is a different one of the load
      balancer's targets (systemconfig.go:34-37, system.go:144-151). */
  lemma DefaultWiring(nodeIds: seq<string>, edgeIds: seq<string>, nodes: seq<Node>, links: seq<Link>)
    requires |nodeIds| == 5 && |edgeIds| == 4 && |nodes| == 5
    requires forall a, b :: 0 <= a < b < |nodeIds| ==> nodeIds[a] != nodeIds[b]
    requires forall a, b :: 0 <= a < b < |edgeIds| ==> edgeIds[a] != edgeIds[b]
    requires nodes[0].ClientNode? && nodes[1].BalancerNode?
    requires nodes[2].ServerNode? && nodes[3].ServerNode? && nodes[4].ServerNode?
    requires Enumerates(links, WithDefaultEdges(map[], nodeIds, edgeIds)) && PairsDistinct(links)
    ensures |Replay(Unwired, nodes[1], nodeIds[1], links).targets| == 3
    ensures Replay(Unwired, nodes[0], nodeIds[0], links).outbound != Unset
    ensures Replay(Unwired, nodes[1], nodeIds[1], links).inbound == Replay(Unwired, nodes[0], nodeIds[0], links).outbound
    ensures forall s :: 2 <= s < 5 ==>
              (exists t :: 0 <= t < 3 &&
                 Replay(Unwired, nodes[s], nodeIds[s], links).inbound == ChannelsOf(Replay(Unwired, nodes[1], nodeIds[1], links).targets[t]))
    ensures forall s, s' :: 2 <= s < s' < 5 ==>
              Replay(Unwired, nodes[s], nodeIds[s], links).inbound != Replay(Unwired, nodes[s'], nodeIds[s'], links).inbound
  {
    var idx := IndexLinks(nodeIds, edgeIds, links);
    ClientFeedsBalancer(nodeIds, edgeIds, nodes, links, idx);
    BalancerTargets(nodeIds, edgeIds, nodes, links, idx);
    forall s | 2 <= s < 5
      ensures Replay(Unwired, nodes[s], nodeIds[s], links).inbound == ChannelsOf(links[idx[s - 1]].pair)
      ensures exists t :: 0 <= t < 3 &&
                Replay(Unwired, nodes[s], nodeIds[s], links).inbound == ChannelsOf(Replay(Unwired, nodes[1], nodeIds[1], links).targets[t])
    {
      var t := ServerFedByBalancer(nodeIds, edgeIds, nodes, links, idx, s);
    }
    DistinctLinks(nodeIds, edgeIds, links, idx);
  }

  /** The store of a default system finds each node under its own ID. */
  lemma DefaultLookup(nodeIds: seq<string>, nodes: seq<Node>, s: nat)
    requires |nodeIds| == 5 && |nodes| == 5 && s < 5
    requires forall i, j :: 0 <= i < j < |nodeIds| ==> nodeIds[i] != nodeIds[j]
    ensures nodeIds[s] in WithDefaultNodes(map[], nodeIds, nodes)
    ensures WithDefaultNodes(map[], nodeIds, nodes)[nodeIds[s]] == nodes[s]
  {
    assert s == 0 || s == 1 || s == 2 || s == 3 || s == 4;
  }

  /** The node objects of a default system are its five nodes. */
  lemma DefaultObjects(nodeIds: seq<string>, nodes: seq<Node>)
    requires |nodeIds| == 5 && |nodes| == 5
    ensures ObjectsOf(WithDefaultNodes(map[], nodeIds, nodes)) <=
            {Obj(nodes[0]), Obj(nodes[1]), Obj(nodes[2]), Obj(nodes[3]), Obj(nodes[4])}
  {
    var store := WithDefaultNodes(map[], nodeIds, nodes);
    forall k | k in store
      ensures store[k] in nodes
    {
    }
  }

  /** NewSystem followed by DefaultSystem (system.go:72-87, systemconfig.go:3-40). */
  method NewDefaultSystem(systemId: string, nodeIds: seq<string>, edgeIds: seq<string>)
    returns (system: System, ghost nodes: seq<Node>)
    requires |nodeIds| == 5 && |edgeIds| == 4
    requires forall i, j :: 0 <= i < j < |nodeIds| ==> nodeIds[i] != nodeIds[j]
    requires forall i, j :: 0 <= i < j < |edgeIds| ==> edgeIds[i] != edgeIds[j]
    ensures fresh(system) && system.Valid() && system.WellWired()
    ensures !system.isResetting && system.generation == 0
    ensures |nodes| == 5 && system.nodeStore == WithDefaultNodes(map[], nodeIds, nodes)
    ensures system.edgeStore == WithDefaultEdges(map[], nodeIds, edgeIds)
    ensures nodes[0].ClientNode? && nodes[1].BalancerNode?
    ensures nodes[2].ServerNode? && nodes[3].ServerNode? && nodes[4].ServerNode?
    ensures forall s :: 0 <= s < 5 ==> WiringOf(nodes[s]) == Unwired
    ensures fresh(system.Objects())
  {
    system := new System(systemId);
    var r;
    r, nodes := DefaultSystem(system, nodeIds, edgeIds);
    DefaultObjects(nodeIds, nodes);
  }

  /** Start on a default system whose nodes have no channels yet: each node
      ends up with the wiring its links give it (system.go:108-151). */
  method StartUnwired(system: System, ghost nodeIds: seq<string>, ghost nodes: seq<Node>) returns (ghost links: seq<Link>)
    requires system.Valid() && system.WellWired() && !system.isResetting
    requires |nodeIds| == 5 && |nodes| == 5
    requires forall i, j :: 0 <= i < j < |nodeIds| ==> nodeIds[i] != nodeIds[j]
    requires system.nodeStore == WithDefaultNodes(map[], nodeIds, nodes)
    requires forall s :: 0 <= s < 5 ==> WiringOf(nodes[s]) == Unwired
    modifies system, system.Objects()
    ensures system.Valid() && system.WellWired()
    ensures system.nodeStore == old(system.nodeStore) && system.edgeStore == old(system.edgeStore)
    ensures !system.isResetting && system.generation == old(system.generation) + 1
    ensures Enumerates(links, system.edgeStore) && PairsDistinct(links)
    ensures forall s :: 0 <= s < 5 ==> WiringOf(nodes[s]) == Replay(Unwired, nodes[s], nodeIds[s], links)
    ensures forall s :: 0 <= s < 5 && nodes[s].BalancerNode? ==>
              nodes[s].balancer.targetNumber == 0 && nodes[s].balancer.dispatched == []
              && nodes[s].balancer.collectors == |nodes[s].balancer.Targets|
  {
    var outcome;
    outcome, links := system.Start();
    forall s | 0 <= s < 5
      ensures WiringOf(nodes[s]) == Replay(Unwired, nodes[s], nodeIds[s], links)
      ensures nodes[s].BalancerNode? ==>
                nodes[s].balancer.targetNumber == 0 && nodes[s].balancer.dispatched == []
                && nodes[s].balancer.collectors == |nodes[s].balancer.Targets|
    {
      DefaultLookup(nodeIds, nodes, s);
      assert old(WiringOf(nodes[s])) == Unwired;
    }
  }

  /** A new system given the default topology and started (system.go:72-87,
      108-151, systemconfig.go:3-40): the load balancer ends up with exactly
      three targets and every node on the request path has its inbound pair
      set, to the pair its upstream neighbour sends on. */
  method StartDefault(systemId: string, nodeIds: seq<string>, edgeIds: seq<string>)
    returns (system: System, ghost nodes: seq<Node>, ghost links: seq<Link>)
    requires |nodeIds| == 5 && |edgeIds| == 4
    requires forall i, j :: 0 <= i < j < |nodeIds| ==> nodeIds[i] != nodeIds[j]
    requires forall i, j :: 0 <= i < j < |edgeIds| ==> edgeIds[i] != edgeIds[j]
    ensures fresh(system) && system.Valid() && system.WellWired()
    ensures !system.isResetting && system.generation == 1
    ensures |nodes| == 5 && system.nodeStore == WithDefaultNodes(map[], nodeIds, nodes)
    ensures system.edgeStore == WithDefaultEdges(map[], nodeIds, edgeIds)
    ensures nodes[0].ClientNode? && nodes[1].BalancerNode?
    ensures nodes[2].ServerNode? && nodes[3].ServerNode? && nodes[4].ServerNode?
    ensures |WiringOf(nodes[1]).targets| == 3
    ensures WiringOf(nodes[0]).outbound != Unset && WiringOf(nodes[1]).inbound == WiringOf(nodes[0]).outbound
    ensures forall s :: 2 <= s < 5 ==>
              (exists t :: 0 <= t < 3 && WiringOf(nodes[s]).inbound == ChannelsOf(WiringOf(nodes[1]).targets[t]))
    ensures forall s, s' :: 2 <= s < s' < 5 ==> WiringOf(nodes[s]).inbound != WiringOf(nodes[s']).inbound
    ensures nodes[1].balancer.RoundRobin() && nodes[1].balancer.collectors == 3
  {
    system, nodes := NewDefaultSystem(systemId, nodeIds, edgeIds);
    links := StartUnwired(system, nodeIds, nodes);
    DefaultWiring(nodeIds, edgeIds, nodes, links);
  }
}
