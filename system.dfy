/** The system graph and its lifecycle (system.go): a node store and an edge
    store keyed by fresh IDs, AddNode and AddEdge, and Start, which rejects a
    call during a reset, replaces the run's cancellation scope, resets every
    node, wires a fresh queue pair per edge and launches every node. The node
    interface becomes the closed variant Node; Go's unordered map iteration
    becomes an arbitrary choice of the next key, and the order actually taken
    is returned as a ghost result. */
module Graph {
  import opened Wire
  import opened Clients
  import opened Servers
  import opened Balancers

  /** A directed edge (system.go:23-27). */
  datatype Edge = Edge(id: string, sourceId: string, targetId: string)

  datatype Node =
    | ClientNode(client: Client)
    | ServerNode(server: Server)
    | BalancerNode(balancer: LoadBalancer)

  function Obj(n: Node): object
  {
    match n
    case ClientNode(c) => c
    case ServerNode(s) => s
    case BalancerNode(b) => b
  }

  /** The objects a node's state lives in. */
  ghost function Footprint(n: Node): set<object>
    reads Obj(n)
  {
    match n
    case ClientNode(c) => {c, c.requestStore}
    case ServerNode(s) => {s}
    case BalancerNode(b) => {b}
  }

  function Id(n: Node): string
  {
    match n
    case ClientNode(c) => c.id
    case ServerNode(s) => s.id
    case BalancerNode(b) => b.id
  }

  function Kind(n: Node): string
  {
    match n
    case ClientNode(c) => c.kind
    case ServerNode(s) => s.kind
    case BalancerNode(b) => b.kind
  }

  function PositionOf(n: Node): Position
    reads Obj(n)
  {
    match n
    case ClientNode(c) => c.position
    case ServerNode(s) => s.position
    case BalancerNode(b) => b.position
  }

  /** Nodes that implement SetOutChannels (system.go:29-31). */
  predicate IsSender(n: Node)
  {
    n.ClientNode? || n.BalancerNode?
  }

  /** Nodes that implement SetInChannels (system.go:33-35). */
  predicate IsReceiver(n: Node)
  {
    n.ServerNode? || n.BalancerNode?
  }

  /** A possibly unset request/response channel pair of a node. */
  datatype Channels = Channels(requests: Queue?<Request>, responses: Queue?<Response>)

  const Unset: Channels := Channels(null, null)

  function ChannelsOf(t: Target): Channels
  {
    Channels(t.requests, t.responses)
  }

  /** The channels a node is attached to. */
  datatype Wiring = Wiring(inbound: Channels, outbound: Channels, targets: seq<Target>)

  ghost function WiringOf(n: Node): Wiring
    reads Obj(n)
  {
    match n
    case ClientNode(c) => Wiring(Unset, Channels(c.outRequests, c.outResponses), [])
    case ServerNode(s) => Wiring(Channels(s.InRequests, s.InResponses), Unset, [])
    case BalancerNode(b) => Wiring(Channels(b.InRequests, b.InResponses), Unset, b.Targets)
  }

  /** The rest of a node's state: its request store, counters and the state
      of the loops its Run starts. */
  datatype Counters =
    | ClientCounters(store: map<int, Request>, totalLatency: int, numResponses: nat, consuming: bool)
    | ServerCounters(routines: nat, inFlight: seq<Request>, numProcessed: int)
    | BalancerCounters(numProcessed: int, targetNumber: nat, collectors: nat, dispatched: seq<nat>)

  ghost function CountersOf(n: Node): Counters
    reads Footprint(n)
  {
    match n
    case ClientNode(c) => ClientCounters(c.requestStore.m, c.totalLatency, c.numResponses, c.consuming)
    case ServerNode(s) => ServerCounters(s.routines, s.inFlight, s.numProcessed)
    case BalancerNode(b) => BalancerCounters(b.numProcessed, b.targetNumber, b.collectors, b.dispatched)
  }

  /** What each node's Reset clears. */
  function ResetCounters(c: Counters): Counters
  {
    match c
    case ClientCounters(_, total, num, consuming) => ClientCounters(map[], total, num, consuming)
    case ServerCounters(_, _, _) => ServerCounters(0, [], 0)
    case BalancerCounters(_, targetNumber, collectors, dispatched) => BalancerCounters(0, targetNumber, collectors, dispatched)
  }

  /** What each node's Run sets up, given the node's wiring. */
  function Launched(c: Counters, w: Wiring): Counters
  {
    match c
    case ClientCounters(store, _, _, _) => ClientCounters(store, 0, 0, true)
    case ServerCounters(_, _, _) => c
    case BalancerCounters(processed, _, _, _) => BalancerCounters(processed, 0, |w.targets|, [])
  }

  /** Reset clears a load balancer's targets; every other attachment stays. */
  function ClearTargets(w: Wiring): Wiring
  {
    w.(targets := [])
  }

  /** Everything about a node that Start changes or keeps. */
  datatype View = View(position: Position, wiring: Wiring, counters: Counters)

  ghost function ViewOf(n: Node): View
    reads Footprint(n)
  {
    View(PositionOf(n), WiringOf(n), CountersOf(n))
  }

  /** A node after its Reset. */
  function ResetView(v: View): View
  {
    v.(wiring := ClearTargets(v.wiring), counters := ResetCounters(v.counters))
  }

  /** A node after its Run has set up its loops. */
  function LaunchView(v: View): View
  {
    v.(counters := Launched(v.counters, v.wiring))
  }

  /** One wiring step: the edge and the fresh pair allocated for it. */
  datatype Link = Link(edge: Edge, pair: Target)

  /** The pair becomes a sender's outbound channels: a client's single pair,
      or one more target of a load balancer (SetOutChannels). */
  function SendTo(w: Wiring, n: Node, pair: Target): Wiring
  {
    if n.ClientNode? then w.(outbound := ChannelsOf(pair))
    else if n.BalancerNode? then w.(targets := w.targets + [pair])
    else w
  }

  /** The pair becomes a receiver's inbound channels (SetInChannels). */
  function ReceiveFrom(w: Wiring, n: Node, pair: Target): Wiring
  {
    if IsReceiver(n) then w.(inbound := ChannelsOf(pair)) else w
  }

  /** What wiring one edge does to the node stored under key k: first its
      source end, then its target end (system.go:149-150). */
  function Attach(w: Wiring, n: Node, k: string, l: Link): Wiring
  {
    var w' := if l.edge.sourceId == k then SendTo(w, n, l.pair) else w;
    if l.edge.targetId == k then ReceiveFrom(w', n, l.pair) else w'
  }

  /** The wiring of node n (key k) after the links are attached in order. */
  function Replay(before: Wiring, n: Node, k: string, links: seq<Link>): Wiring
  {
    if links == [] then before
    else Attach(Replay(before, n, k, links[..|links| - 1]), n, k, links[|links| - 1])
  }

  /** A node after the links are attached. */
  function WiredView(v: View, n: Node, k: string, links: seq<Link>): View
  {
    v.(wiring := Replay(v.wiring, n, k, links))
  }

  /** A node after Start: reset, wired, launched; its position kept. */
  function StartedView(v: View, n: Node, k: string, links: seq<Link>): View
  {
    LaunchView(WiredView(ResetView(v), n, k, links))
  }

  /** Wiring one more link attaches it to what the earlier links left. */
  lemma WiredStep(v: View, n: Node, k: string, links: seq<Link>, l: Link)
    ensures WiredView(v, n, k, links + [l]) ==
            WiredView(v, n, k, links).(wiring := Attach(WiredView(v, n, k, links).wiring, n, k, l))
  {
    assert (links + [l])[..|links|] == links;
  }

  /** The pairs of the links leaving k, in order. */
  function Outgoing(links: seq<Link>, k: string): (ts: seq<Target>)
    ensures |ts| <= |links|
  {
    if links == [] then []
    else
      var last := links[|links| - 1];
      var rest := Outgoing(links[..|links| - 1], k);
      if last.edge.sourceId == k then rest + [last.pair] else rest
  }

  /** The pair of the last link with the given endpoint, or the fallback when there is none. */
  function LastAt(links: seq<Link>, k: string, outgoing: bool, fallback: Channels): Channels
  {
    if links == [] then fallback
    else
      var last := links[|links| - 1];
      if (if outgoing then last.edge.sourceId else last.edge.targetId) == k then ChannelsOf(last.pair)
      else LastAt(links[..|links| - 1], k, outgoing, fallback)
  }

  /** When exactly one link has the given endpoint k, the last pair at k is that link's. */
  lemma {:induction false} LastAtUnique(links: seq<Link>, k: string, outgoing: bool, fallback: Channels, j: nat)
    requires j < |links| && (if outgoing then links[j].edge.sourceId else links[j].edge.targetId) == k
    requires forall i :: 0 <= i < |links| && i != j ==>
               (if outgoing then links[i].edge.sourceId else links[i].edge.targetId) != k
    ensures LastAt(links, k, outgoing, fallback) == ChannelsOf(links[j].pair)
  {
    if j < |links| - 1 {
      LastAtUnique(links[..|links| - 1], k, outgoing, fallback, j);
    }
  }

  /** The pair of every link leaving k is among k's outgoing pairs. */
  lemma {:induction false} InOutgoing(links: seq<Link>, k: string, i: nat)
    requires i < |links| && links[i].edge.sourceId == k
    ensures links[i].pair in Outgoing(links, k)
  {
    if i < |links| - 1 {
      InOutgoing(links[..|links| - 1], k, i);
    }
  }

  /** Replay in closed form: a load balancer's targets gain the pairs of its
      outgoing edges in wiring order; every inbound pair and a client's
      outbound pair is the one of the last edge wired at that end. */
  lemma {:induction false} ReplayClosedForm(before: Wiring, n: Node, k: string, links: seq<Link>)
    requires forall i :: 0 <= i < |links| ==> (links[i].edge.sourceId == k ==> IsSender(n))
    ensures n.BalancerNode? ==> Replay(before, n, k, links).targets == before.targets + Outgoing(links, k)
    ensures !n.BalancerNode? ==> Replay(before, n, k, links).targets == before.targets
    ensures n.ClientNode? ==> Replay(before, n, k, links).outbound == LastAt(links, k, true, before.outbound)
    ensures !n.ClientNode? ==> Replay(before, n, k, links).outbound == before.outbound
    ensures IsReceiver(n) ==> Replay(before, n, k, links).inbound == LastAt(links, k, false, before.inbound)
    ensures !IsReceiver(n) ==> Replay(before, n, k, links).inbound == before.inbound
  {
    if links != [] {
      ReplayClosedForm(before, n, k, links[..|links| - 1]);
    }
  }

  /** The links wire every edge of the store exactly once. */
  ghost predicate Enumerates(links: seq<Link>, edges: map<string, Edge>)
  {
    && (forall i :: 0 <= i < |links| ==> links[i].edge.id in edges && edges[links[i].edge.id] == links[i].edge)
    && (forall e :: e in edges ==> exists i :: 0 <= i < |links| && links[i].edge.id == e)
    && (forall i, j :: 0 <= i < j < |links| ==> links[i].edge.id != links[j].edge.id)
  }

  /** Each link has its own fresh-looking pair: no queue is shared by two links. */
  ghost predicate PairsDistinct(links: seq<Link>)
  {
    forall i, j :: 0 <= i < j < |links| ==>
      links[i].pair.requests != links[j].pair.requests && links[i].pair.responses != links[j].pair.responses
  }

  /** The IDs of the edges leaving k. */
  ghost function EdgesFrom(edges: map<string, Edge>, k: string): set<string>
  {
    set e | e in edges && edges[e].sourceId == k
  }

  /** The indexes of the links leaving k. */
  ghost function OutIndexes(links: seq<Link>, k: string): set<nat>
  {
    set i: nat | i < |links| && links[i].edge.sourceId == k
  }

  lemma {:induction false} OutgoingCount(links: seq<Link>, k: string)
    ensures |Outgoing(links, k)| == |OutIndexes(links, k)|
  {
    if links != [] {
      var init := links[..|links| - 1];
      OutgoingCount(init, k);
      var last := |links| - 1;
      if links[last].edge.sourceId == k {
        assert OutIndexes(links, k) == OutIndexes(init, k) + {last};
      } else {
        assert OutIndexes(links, k) == OutIndexes(init, k);
      }
    }
  }

  /** Over a full enumeration of the edges, the number of pairs leaving k is
      the number of edges whose source is k. */
  lemma OutgoingMatchesEdges(links: seq<Link>, edges: map<string, Edge>, k: string)
    requires Enumerates(links, edges)
    ensures |Outgoing(links, k)| == |EdgesFrom(edges, k)|
  {
    OutgoingCount(links, k);
    var idx := OutIndexes(links, k);
    var ids := EdgesFrom(edges, k);
    forall e | e in ids
      ensures exists i :: i in idx && links[i].edge.id == e
    {
      var i :| 0 <= i < |links| && links[i].edge.id == e;
      assert i in idx;
    }
    InjectiveImage(links, idx, ids);
  }

  /** Distinct edge IDs: as many IDs as indexes. */
  lemma InjectiveImage(links: seq<Link>, idx: set<nat>, ids: set<string>)
    requires forall i :: i in idx ==> i < |links|
    requires forall i, j :: 0 <= i < j < |links| ==> links[i].edge.id != links[j].edge.id
    requires forall e :: e in ids <==> exists i :: i in idx && links[i].edge.id == e
    ensures |ids| == |idx|
    decreases |idx|
  {
    if idx != {} {
      var i :| i in idx;
      var rest := idx - {i};
      var restIds := ids - {links[i].edge.id};
      forall e | e in restIds
        ensures exists j :: j in rest && links[j].edge.id == e
      {
        var j :| j in idx && links[j].edge.id == e;
        assert j != i;
      }
      forall j | j in rest
        ensures links[j].edge.id in restIds
      {
        assert links[j].edge.id in ids;
        assert i < j || j < i;
      }
      InjectiveImage(links, rest, restIds);
    }
  }

  /** The node objects of a store. */
  ghost function ObjectsOf(store: map<string, Node>): set<object>
  {
    set k | k in store :: Obj(store[k])
  }

  /** Every node is stored under its own ID. */
  ghost predicate IdKeyed(store: map<string, Node>)
  {
    forall k :: k in store ==> Id(store[k]) == k
  }

  /** A node object carries one ID: nodes with different IDs are different
      objects, so an IdKeyed store holds no object under two keys. */
  lemma DistinctIds(m: Node, n: Node)
    requires Id(m) != Id(n)
    ensures Obj(m) != Obj(n)
  {
  }

  /** What InitEdges needs to succeed: both ends of every edge exist, the
      source can send and the target can receive (system.go:149-150 assert
      the Sender and Receiver interfaces). */
  ghost predicate Wired(nodes: map<string, Node>, edges: map<string, Edge>)
  {
    forall e :: e in edges ==>
      && edges[e].sourceId in nodes && IsSender(nodes[edges[e].sourceId])
      && edges[e].targetId in nodes && IsReceiver(nodes[edges[e].targetId])
  }

  /** node.Reset() (system.go:131) on the node stored under k; no other
      node of the store changes. */
  method ResetNode(store: map<string, Node>, k: string)
    requires IdKeyed(store) && k in store
    modifies Obj(store[k])
    ensures forall j :: j in store ==>
              ViewOf(store[j]) == if j == k then ResetView(old(ViewOf(store[j]))) else old(ViewOf(store[j]))
  {
    ghost var views := map j | j in store :: ViewOf(store[j]);
    match store[k] {
      case ClientNode(c) => c.Reset();
      case ServerNode(s) => s.Reset();
      case BalancerNode(b) => b.Reset();
    }
    forall j | j in store && j != k
      ensures ViewOf(store[j]) == views[j]
    {
      DistinctIds(store[j], store[k]);
    }
  }

  /** node.Run(...) (system.go:138) on the node stored under k: what Run
      sets up before its goroutines start (a server's Run sets up nothing);
      no other node of the store changes. */
  method LaunchNode(store: map<string, Node>, k: string)
    requires IdKeyed(store) && k in store
    modifies Obj(store[k])
    ensures forall j :: j in store ==>
              ViewOf(store[j]) == if j == k then LaunchView(old(ViewOf(store[j]))) else old(ViewOf(store[j]))
  {
    ghost var views := map j | j in store :: ViewOf(store[j]);
    match store[k] {
      case ClientNode(c) => c.Run();
      case ServerNode(s) =>
      case BalancerNode(b) => b.Run();
    }
    forall j | j in store && j != k
      ensures ViewOf(store[j]) == views[j]
    {
      DistinctIds(store[j], store[k]);
    }
  }

  /** node.(Sender).SetOutChannels (system.go:149) on the node stored under
      k; no other node of the store changes. */
  method ConnectOut(store: map<string, Node>, k: string, pair: Target)
    requires IdKeyed(store) && k in store && IsSender(store[k])
    modifies Obj(store[k])
    ensures forall j :: j in store ==>
              ViewOf(store[j]) ==
              if j == k then old(ViewOf(store[j])).(wiring := SendTo(old(ViewOf(store[j])).wiring, store[j], pair))
              else old(ViewOf(store[j]))
  {
    ghost var views := map j | j in store :: ViewOf(store[j]);
    match store[k] {
      case ClientNode(c) => c.SetOutChannels(pair.requests, pair.responses);
      case BalancerNode(b) => b.SetOutChannels(pair.requests, pair.responses);
    }
    forall j | j in store && j != k
      ensures ViewOf(store[j]) == views[j]
    {
      DistinctIds(store[j], store[k]);
    }
  }

  /** node.(Receiver).SetInChannels (system.go:150) on the node stored under
      k; no other node of the store changes. */
  method ConnectIn(store: map<string, Node>, k: string, pair: Target)
    requires IdKeyed(store) && k in store && IsReceiver(store[k])
    modifies Obj(store[k])
    ensures forall j :: j in store ==>
              ViewOf(store[j]) ==
              if j == k then old(ViewOf(store[j])).(wiring := ReceiveFrom(old(ViewOf(store[j])).wiring, store[j], pair))
              else old(ViewOf(store[j]))
  {
    ghost var views := map j | j in store :: ViewOf(store[j]);
    match store[k] {
      case ServerNode(s) => s.SetInChannels(pair.requests, pair.responses);
      case BalancerNode(b) => b.SetInChannels(pair.requests, pair.responses);
    }
    forall j | j in store && j != k
      ensures ViewOf(store[j]) == views[j]
    {
      DistinctIds(store[j], store[k]);
    }
  }

  /** The first loop of Start (system.go:130-132), in an arbitrary key order. */
  method ResetAll(store: map<string, Node>)
    requires IdKeyed(store)
    modifies ObjectsOf(store)
    ensures forall k :: k in store ==> ViewOf(store[k]) == ResetView(old(ViewOf(store[k])))
  {
    var remaining := store.Keys;
    while remaining != {}
      invariant remaining <= store.Keys
      invariant forall k :: k in store ==>
                  ViewOf(store[k]) ==
                  if k in remaining then old(ViewOf(store[k])) else ResetView(old(ViewOf(store[k])))
      decreases remaining
    {
      var k :| k in remaining;
      ResetNode(store, k);
      remaining := remaining - {k};
    }
  }

  /** The last loop of Start (system.go:137-139), in an arbitrary key order. */
  method LaunchAll(store: map<string, Node>)
    requires IdKeyed(store)
    modifies ObjectsOf(store)
    ensures forall k :: k in store ==> ViewOf(store[k]) == LaunchView(old(ViewOf(store[k])))
  {
    var remaining := store.Keys;
    while remaining != {}
      invariant remaining <= store.Keys
      invariant forall k :: k in store ==>
                  ViewOf(store[k]) ==
                  if k in remaining then old(ViewOf(store[k])) else LaunchView(old(ViewOf(store[k])))
      decreases remaining
    {
      var k :| k in remaining;
      LaunchNode(store, k);
      remaining := remaining - {k};
    }
  }

  /** One iteration of InitEdges (system.go:149-150): the pair joins the
      edge's source to its target; no other node changes. */
  method WireEdge(store: map<string, Node>, edge: Edge, pair: Target)
    requires IdKeyed(store)
    requires edge.sourceId in store && IsSender(store[edge.sourceId])
    requires edge.targetId in store && IsReceiver(store[edge.targetId])
    modifies ObjectsOf(store)
    ensures forall k :: k in store ==>
              ViewOf(store[k]) == old(ViewOf(store[k])).(wiring := Attach(old(ViewOf(store[k])).wiring, store[k], k, Link(edge, pair)))
  {
    ConnectOut(store, edge.sourceId, pair);
    ConnectIn(store, edge.targetId, pair);
  }

  /** An iteration order over a set of keys: each key exactly once. */
  ghost predicate Ordering(order: seq<string>, keys: set<string>)
  {
    && (forall i :: 0 <= i < |order| ==> order[i] in keys)
    && (forall k :: k in keys ==> k in order)
    && (forall i, j :: 0 <= i < j < |order| ==> order[i] != order[j])
  }

  /** The order a Go range over a map takes, which the runtime chooses. */
  method KeyOrder(keys: set<string>) returns (order: seq<string>)
    ensures Ordering(order, keys)
  {
    order := [];
    var remaining := keys;
    while remaining != {}
      invariant remaining <= keys
      invariant forall i :: 0 <= i < |order| ==> order[i] in keys && order[i] !in remaining
      invariant forall k :: k in keys ==> k in remaining || k in order
      invariant forall i, j :: 0 <= i < j < |order| ==> order[i] != order[j]
      decreases remaining
    {
      var k :| k in remaining;
      order := order + [k];
      remaining := remaining - {k};
    }
  }

  /** Wiring the edges in an iteration order over the edge store enumerates it. */
  lemma OrderEnumerates(order: seq<string>, links: seq<Link>, edges: map<string, Edge>)
    requires Ordering(order, edges.Keys)
    requires forall e :: e in edges ==> edges[e].id == e
    requires |links| == |order|
    requires forall i :: 0 <= i < |links| ==> links[i].edge == edges[order[i]]
    ensures Enumerates(links, edges)
  {
    forall e | e in edges
      ensures exists i :: 0 <= i < |links| && links[i].edge.id == e
    {
      var i :| 0 <= i < |order| && order[i] == e;
      assert links[i].edge.id == e;
    }
  }

  /** The make(chan ..., 1000) pairs of InitEdges (system.go:146-147), one per
      edge: new, empty and unshared. */
  method MakePairs(count: nat) returns (pairs: seq<Target>)
    ensures |pairs| == count
    ensures forall i :: 0 <= i < count ==> fresh(pairs[i].requests) && fresh(pairs[i].responses)
    ensures forall i :: 0 <= i < count ==>
              && pairs[i].requests.items == [] && pairs[i].responses.items == []
              && pairs[i].requests.capacity == QueueCapacity && pairs[i].responses.capacity == QueueCapacity
    ensures forall i, j :: 0 <= i < j < count ==>
              pairs[i].requests != pairs[j].requests && pairs[i].responses != pairs[j].responses
  {
    pairs := [];
    while |pairs| < count
      invariant |pairs| <= count
      invariant forall i :: 0 <= i < |pairs| ==> fresh(pairs[i].requests) && fresh(pairs[i].responses)
      invariant forall i :: 0 <= i < |pairs| ==>
                  && pairs[i].requests.items == [] && pairs[i].responses.items == []
                  && pairs[i].requests.capacity == QueueCapacity && pairs[i].responses.capacity == QueueCapacity
      invariant forall i, j :: 0 <= i < j < |pairs| ==>
                  pairs[i].requests != pairs[j].requests && pairs[i].responses != pairs[j].responses
    {
      var requests := new Queue<Request>(QueueCapacity);
      var responses := new Queue<Response>(QueueCapacity);
      pairs := pairs + [Target(requests, responses)];
    }
  }

  /** What InitEdges draws before attaching anything: the order its range
      takes over the edges and one new pair per edge. The ghost result is the
      wiring steps this plan takes. */
  method PlanWiring(edges: map<string, Edge>) returns (order: seq<string>, pairs: seq<Target>, ghost links: seq<Link>)
    requires forall e :: e in edges ==> edges[e].id == e
    ensures |pairs| == |order| == |links|
    ensures forall i :: 0 <= i < |links| ==> order[i] in edges && links[i] == Link(edges[order[i]], pairs[i])
    ensures Enumerates(links, edges) && PairsDistinct(links)
    ensures forall i :: 0 <= i < |links| ==> fresh(links[i].pair.requests) && fresh(links[i].pair.responses)
    ensures forall i :: 0 <= i < |links| ==>
              links[i].pair.requests.capacity == QueueCapacity && links[i].pair.responses.capacity == QueueCapacity
  {
    order := KeyOrder(edges.Keys);
    pairs := MakePairs(|order|);
    links := seq(|order|, i requires 0 <= i < |order| => Link(edges[order[i]], pairs[i]));
    OrderEnumerates(order, links, edges);
  }

  /** The prefix of one more link is the shorter prefix extended by it. */
  lemma PrefixStep(links: seq<Link>, n: nat)
    requires n < |links|
    ensures links[..n + 1] == links[..n] + [links[n]]
  {
  }

  /** The loop of InitEdges run over the edges in the given order, the i-th
      edge joined by the i-th pair; links are the steps it takes. */
  method WireInOrder(store: map<string, Node>, edges: map<string, Edge>, order: seq<string>, pairs: seq<Target>,
                     ghost links: seq<Link>)
    requires IdKeyed(store) && Wired(store, edges)
    requires |pairs| == |order| == |links|
    requires forall i :: 0 <= i < |links| ==> order[i] in edges && links[i] == Link(edges[order[i]], pairs[i])
    modifies ObjectsOf(store)
    ensures forall k :: k in store ==> ViewOf(store[k]) == WiredView(old(ViewOf(store[k])), store[k], k, links)
  {
    for n := 0 to |order|
      invariant forall k :: k in store ==> ViewOf(store[k]) == WiredView(old(ViewOf(store[k])), store[k], k, links[..n])
    {
      WireEdge(store, edges[order[n]], pairs[n]);
      PrefixStep(links, n);
      forall k | k in store
        ensures ViewOf(store[k]) == WiredView(old(ViewOf(store[k])), store[k], k, links[..n + 1])
      {
        WiredStep(old(ViewOf(store[k])), store[k], k, links[..n], links[n]);
      }
    }
    assert links[..|order|] == links;
  }

  /** InitEdges (system.go:144-152): for each edge, in the order the range
      takes, a new queue pair becomes the outbound channels of its source and
      the inbound channels of its target. The wiring steps taken are the
      ghost result. */
  method WireAll(store: map<string, Node>, edges: map<string, Edge>) returns (ghost links: seq<Link>)
    requires IdKeyed(store) && Wired(store, edges)
    requires forall e :: e in edges ==> edges[e].id == e
    modifies ObjectsOf(store)
    ensures Enumerates(links, edges) && PairsDistinct(links)
    ensures forall i :: 0 <= i < |links| ==> fresh(links[i].pair.requests) && fresh(links[i].pair.responses)
    ensures forall i :: 0 <= i < |links| ==>
              links[i].pair.requests.capacity == QueueCapacity && links[i].pair.responses.capacity == QueueCapacity
    ensures forall k :: k in store ==> ViewOf(store[k]) == WiredView(old(ViewOf(store[k])), store[k], k, links)
  {
    var order, pairs;
    order, pairs, links := PlanWiring(edges);
    WireInOrder(store, edges, order, pairs, links);
  }

  /** The part of Start after the new scope is open (system.go:130-139):
      reset every node, wire every edge, launch every node. */
  method Restart(store: map<string, Node>, edges: map<string, Edge>) returns (ghost links: seq<Link>)
    requires IdKeyed(store) && Wired(store, edges)
    requires forall e :: e in edges ==> edges[e].id == e
    modifies ObjectsOf(store)
    ensures Enumerates(links, edges) && PairsDistinct(links)
    ensures forall i :: 0 <= i < |links| ==> fresh(links[i].pair.requests) && fresh(links[i].pair.responses)
    ensures forall i :: 0 <= i < |links| ==>
              links[i].pair.requests.capacity == QueueCapacity && links[i].pair.responses.capacity == QueueCapacity
    ensures forall k :: k in store ==> ViewOf(store[k]) == StartedView(old(ViewOf(store[k])), store[k], k, links)
  {
    ghost var v0 := map k | k in store :: ViewOf(store[k]);
    ResetAll(store);
    ghost var v1 := map k | k in store :: ViewOf(store[k]);
    links := WireAll(store, edges);
    ghost var v2 := map k | k in store :: ViewOf(store[k]);
    LaunchAll(store);
    forall k | k in store
      ensures ViewOf(store[k]) == StartedView(v0[k], store[k], k, links)
    {
      assert v1[k] == ResetView(v0[k]);
      assert v2[k] == WiredView(v1[k], store[k], k, links);
    }
  }

  /** The node AddNode creates (system.go:90-102): a new node of the given
      type under the given ID, at (500, 150), unattached, with its counters
      in their reset state. The type must be one of the three known ones: for
      any other the source calls SetPosition on a nil node. */
  method NewNode(nodeType: string, nodeId: string) returns (n: Node)
    requires nodeType == ClientType || nodeType == ServerType || nodeType == LoadBalancerType
    ensures Id(n) == nodeId && Kind(n) == nodeType
    ensures n.ClientNode? <==> nodeType == ClientType
    ensures n.ServerNode? <==> nodeType == ServerType
    ensures fresh(Footprint(n))
    ensures ViewOf(n) == View(Position(500, 150), Wiring(Unset, Unset, []), ResetCounters(CountersOf(n)))
    ensures n.ServerNode? ==> n.server.Valid()
  {
    if nodeType == ClientType {
      var c := new Client(nodeId);
      c.SetPosition(Position(500, 150));
      n := ClientNode(c);
    } else if nodeType == ServerType {
      var s := new Server(nodeId);
      s.SetPosition(Position(500, 150));
      n := ServerNode(s);
    } else {
      var b := new LoadBalancer(nodeId);
      b.SetPosition(Position(500, 150));
      n := BalancerNode(b);
    }
  }

  /** Node.SetPosition (system.go:18): only the position changes. */
  method SetNodePosition(n: Node, p: Position)
    modifies Obj(n)
    ensures Footprint(n) == old(Footprint(n))
    ensures ViewOf(n) == old(ViewOf(n)).(position := p)
  {
    match n {
      case ClientNode(c) => c.SetPosition(p);
      case ServerNode(s) => s.SetPosition(p);
      case BalancerNode(b) => b.SetPosition(p);
    }
  }

  /** A system is none of its nodes, so resetting and wiring them leaves its
      own fields alone. */
  lemma SystemIsNoNode(store: map<string, Node>, s: System)
    ensures s !in ObjectsOf(store)
  {
    forall k | k in store
      ensures Obj(store[k]) != s
    {
    }
  }

  datatype StartOutcome = Started | ResetInProgress(systemId: string)

  class System {
    const id: string
    var nodeStore: map<string, Node>
    var edgeStore: map<string, Edge>

    var isResetting: bool
    /** The current cancellation scope and wait group, numbered. */
    var generation: nat
    /** Whether the current scope has been cancelled. */
    var cancelled: bool
    /** Scopes that have been cancelled and whose units have all been waited for. */
    ghost var retired: set<nat>

    ghost function Objects(): set<object>
      reads this
    {
      ObjectsOf(nodeStore)
    }

    /** Every node and every edge is stored under its own ID; only earlier scopes are retired. */
    ghost predicate Keyed()
      reads this
    {
      && IdKeyed(nodeStore)
      && (forall k :: k in edgeStore ==> edgeStore[k].id == k)
      && (forall g :: g in retired ==> g < generation)
    }

    /** Every server's slot pool is consistent. */
    ghost predicate PoolsValid()
      reads this, Objects()
    {
      forall k :: k in nodeStore && nodeStore[k].ServerNode? ==> nodeStore[k].server.Valid()
    }

    ghost predicate Valid()
      reads this, Objects()
    {
      Keyed() && PoolsValid()
    }

    ghost predicate WellWired()
      reads this
    {
      Wired(nodeStore, edgeStore)
    }

    /** NewSystem (system.go:72-87). */
    constructor (id: string)
      ensures Valid() && WellWired()
      ensures this.id == id && nodeStore == map[] && edgeStore == map[]
      ensures !isResetting && generation == 0 && !cancelled && retired == {}
    {
      this.id := id;
      nodeStore, edgeStore := map[], map[];
      isResetting, generation, cancelled := false, 0, false;
      retired := {};
    }

    /** AddNode (system.go:89-106) with the fresh ID passed in. */
    method AddNode(nodeType: string, nodeId: string) returns (n: Node)
      requires Valid()
      requires nodeType == ClientType || nodeType == ServerType || nodeType == LoadBalancerType
      requires nodeId !in nodeStore
      modifies this`nodeStore
      ensures Valid()
      ensures nodeStore == old(nodeStore)[nodeId := n]
      ensures edgeStore == old(edgeStore)
      ensures Id(n) == nodeId && Kind(n) == nodeType
      ensures n.ClientNode? <==> nodeType == ClientType
      ensures n.ServerNode? <==> nodeType == ServerType
      ensures fresh(Footprint(n))
      ensures ViewOf(n) == View(Position(500, 150), Wiring(Unset, Unset, []), ResetCounters(CountersOf(n)))
      ensures old(WellWired()) ==> WellWired()
    {
      n := NewNode(nodeType, nodeId);
      ghost var before := nodeStore;
      nodeStore := nodeStore[nodeId := n];
      forall k | k in nodeStore && nodeStore[k].ServerNode?
        ensures nodeStore[k].server.Valid()
      {
        if k != nodeId {
          assert nodeStore[k] == before[k];
        }
      }
    }

    /** AddEdge (system.go:154-161) with the fresh ID passed in. It checks
        neither endpoint and allocates no queues. */
    method AddEdge(sourceId: string, targetId: string, edgeId: string)
      requires Valid()
      requires edgeId !in edgeStore
      modifies this`edgeStore
      ensures Valid()
      ensures edgeStore == old(edgeStore)[edgeId := Edge(edgeId, sourceId, targetId)]
      ensures nodeStore == old(nodeStore)
    {
      edgeStore := edgeStore[edgeId := Edge(edgeId, sourceId, targetId)];
    }

    /** The cancel function of the current scope, as the client calls it once
        every response has arrived. */
    method Cancel()
      modifies this`cancelled
      ensures cancelled
    {
      cancelled := true;
    }

    /** Start (system.go:108-142). */
    method Start() returns (outcome: StartOutcome, ghost links: seq<Link>)
      requires Valid() && WellWired()
      modifies this, Objects()
      ensures Valid() && WellWired()
      ensures nodeStore == old(nodeStore) && edgeStore == old(edgeStore)
      ensures old(isResetting) ==> outcome == ResetInProgress(id)
      ensures old(isResetting) ==> unchanged(this) && unchanged(Objects())
      ensures !old(isResetting) ==> outcome == Started
      ensures !old(isResetting) ==>
                && !isResetting && !cancelled
                && generation == old(generation) + 1
                && retired == old(retired) + {old(generation)}
      ensures !old(isResetting) ==> Enumerates(links, edgeStore) && PairsDistinct(links)
      ensures !old(isResetting) ==> forall i :: 0 <= i < |links| ==>
                && fresh(links[i].pair.requests) && fresh(links[i].pair.responses)
                && links[i].pair.requests.capacity == QueueCapacity && links[i].pair.responses.capacity == QueueCapacity
      ensures !old(isResetting) ==> forall k :: k in nodeStore ==>
                ViewOf(nodeStore[k]) == StartedView(old(ViewOf(nodeStore[k])), nodeStore[k], k, links)
    {
      links := [];
      if isResetting {
        outcome := ResetInProgress(id);
        return;
      }
      // Cancel the current scope, wait for all of its units, then open a new
      // scope and wait group.
      cancelled := true;
      isResetting := true;
      retired := retired + {generation};
      generation := generation + 1;
      cancelled := false;
      isResetting := false;

      var store := nodeStore;
      SystemIsNoNode(store, this);
      links := Restart(store, edgeStore);
      forall k | k in store && store[k].ServerNode?
        ensures store[k].server.Valid()
      {
        assert ViewOf(store[k]).counters == ServerCounters(0, [], 0);
      }
      outcome := Started;
    }
  }
}
