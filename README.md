# systemdesigner core in Dafny

A model of the simulation core of systemdesigner. The simulation has three kinds of node:

- **Client.** It sends a fixed workload of numbered requests and measures response latency.
- **Load balancer.** It spreads requests over its downstream servers in strict round-robin order and forwards their responses back.
- **Server.** It processes each request in one of a bounded pool of slots.

A `System` holds the nodes and the directed edges between them. Its `Start` does four things:

- It rejects a call made while a reset is in progress.
- It replaces the run's cancellation scope.
- It resets every node, then wires one new request/response queue pair per edge. The pair is the source's outbound channels and the target's inbound channels.
- It launches every node.

`DefaultSystem` builds the standard topology: client → load balancer → three servers.

Modules, one per source file:

| module | file | form |
|---|---|---|
| `Wire` | shared types of system.go | value types; `Queue<T>` class for a Go channel |
| `Metrics` | metrics.go | pure functions over `real` severity |
| `Clients` | client.go | `RequestStore` and `Client` classes |
| `Servers` | server.go | `Server` class with a slot pool |
| `Balancers` | loadbalancer.go | `LoadBalancer` class; round-robin arithmetic as functions and lemmas |
| `Graph` | system.go | `System` class; the node interface as the variant `Node` |
| `Topology` | systemconfig.go | straight-line methods on a `System` |

How the concurrency is modelled:

- Each goroutine loop becomes a step method. The step is one case of its `select`, and a receive case is enabled by a `requires` that a value is waiting.
- A channel is a `Queue<T>` object. Its identity matters, because one pair is shared by the two ends of an edge.
- The `context`/`WaitGroup` pair becomes a generation counter, a cancelled flag and a ghost set of retired generations.
- Go's unordered map iteration becomes an arbitrary choice of the next key. The order actually taken is a ghost result (`links`). Every property of the wiring holds for every such order.
- `Graph.View` is everything about a node that `Start` changes or keeps: position, wiring and counters. `Start` is specified per node as `StartedView`, meaning reset, then the links replayed in order, then launched. `ReplayClosedForm` turns that into a closed form: a load balancer's targets are the pairs of its outgoing edges, in wiring order, and each inbound pair is the pair of the last edge wired at that end.

## Model

| member | source | states |
|---|---|---|
| Metrics.NewNumResponses | metrics.go:17-23 | name "Responses", empty unit, the value unchanged, severity 0 |
| Metrics.NewAvgLatency | metrics.go:25-42 | name "Avg. Latency", unit ms, value unchanged; severity 0 up to 500, 1 from 1000, (value-500)/500 between, always in [0,1] |
| Metrics.NewQueued | metrics.go:44-52 | name "Queued", unit reqs; severity min(1, value/100): never above 1, exactly 1 from 100, value/100 below, non-negative for non-negative values |
| Metrics.NewUtilisation | metrics.go:54-61 | name "Utilisation", unit %; severity is value/100 and lies in [0,1] for values in [0,100] |
| Metrics.NewProcessed | metrics.go:63-69 | name "Processed", unit reqs, value unchanged, severity 0 |
| Metrics.AvgLatencyMonotone | metrics.go:28-34 | latency severity never decreases as the latency grows |
| Metrics.AvgLatencyMidpoint | metrics.go:32-33 | 750 ms has severity exactly 0.5 |
| Metrics.QueuedMonotone | metrics.go:45 | queue severity never decreases as the queue grows |
| Wire.Queue.constructor | system.go:146-147 | `make(chan T, n)`: a new, empty channel with buffer size n |
| Wire.Queue.Send | client.go:74 | `ch <- x`: x is appended after every value already waiting |
| Wire.Queue.Receive | loadbalancer.go:79 | `<-ch` with a value waiting: the oldest value is taken and the rest stay in order |
| Wire.Len | server.go:88 | `len` of a channel: the number of waiting values, 0 for an unset channel |
| Clients.GoDiv | client.go:118 | Go integer division: the quotient truncated toward zero, for either sign of the dividend |
| Clients.Latency | client.go:101-102 | Time.Sub then Milliseconds: the exact difference while it fits a time.Duration, otherwise saturated at ±9223372036854 ms; never outside that range |
| Clients.ClockGap | client.go:66-78 | with each iteration sleeping the 10 ms request interval, iterations j − i apart start at least (j − i)·10 ms apart |
| Clients.ProducedSpaced | client.go:66-78 | the requests the producer sends are spaced: any two sent j − i iterations apart carry send times at least (j − i)·10 ms apart |
| Clients.Produced | client.go:66-78 | the n requests the producer sends are numbered 0..n-1 in order, each with its own send time |
| Clients.Recorded | client.go:75 | after n iterations the store holds exactly the keys 0..n-1, each mapped to the request sent with that number |
| Clients.RequestStore.constructor | client.go:148-153 | a new store with no entries |
| Clients.RequestStore.Put | client.go:155-159 | the key now maps to the request; no other key changes |
| Clients.RequestStore.Get | client.go:161-165 | a stored key yields its request; a key never stored yields the zero Request |
| Clients.Client.constructor | client.go:28-35 | a new client: its ID, type client, no channels, an empty request store |
| Clients.Client.SetPosition | client.go:49-51 | only the position changes |
| Clients.Client.SetOutChannels | client.go:53-56 | the outbound pair is replaced; the last wiring wins |
| Clients.Client.Run | client.go:91-92 | the consumer starts with zero latency total and zero responses |
| Clients.Client.Produce | client.go:62-80 | given clock readings spaced by the 10 ms sleep: unless cancelled first, exactly NumRequests requests numbered 0..NumRequests-1 are appended to the outbound queue in order, and each is recorded under its own number; cancellation at iteration c stops it after c; an unwired client sends nothing |
| Clients.Client.ReceiveResponse | client.go:98-104 | one response is consumed; the count rises by exactly 1 and the total by exactly Latency(now, recorded send time); for a number never recorded the send time is Go's zero time, so a present-day clock adds the saturated 9223372036854 ms |
| Clients.Client.Report | client.go:106-120 | no message exactly when no response has arrived or no whole second has elapsed; otherwise one message tagged with the client's ID holding [Responses = count, Avg. Latency = total / count truncated] |
| Clients.Client.Tick | client.go:106-127 | emits Report; cancels the run and stops consuming exactly when it emits a message and every request has been answered |
| Clients.Client.Cancelled | client.go:95-97 | the consumer stops |
| Clients.Client.Reset | client.go:132-134 | the request store is replaced by a new empty one; nothing else changes |
| Clients.Client.GetMetrics | client.go:136-141 | zero Responses and zero Avg. Latency, both with severity 0 |
| Servers.ProcessingTime | server.go:112 | every draw gives a processing time in [300, 600] ms |
| Servers.ProcessingTimeCoversRange | server.go:112 | every time in [300, 600] ms is produced by some draw |
| Servers.Utilisation | server.go:81 | occupied slots as a percentage of 20: in [0,100], exactly occupied·100/20 |
| Servers.ServerMetrics | server.go:84-91 | a server report is [Processed, Queued, Utilisation] in that order; utilisation value in [0,100] and severity in [0,1] |
| Servers.Server.constructor | server.go:32-40 | a new server: its ID, type server, an empty pool, a zero count |
| Servers.Server.SetPosition | server.go:54-56 | only the position changes |
| Servers.Server.SetInChannels | server.go:58-61 | the inbound pair is replaced; the last wiring wins |
| Servers.Server.Receive | server.go:75-79 | takes the next request, acquires one slot and starts a unit for it; the pool stays within 20 slots |
| Servers.Server.Process | server.go:97-119 | the unit releases exactly one slot on both paths; cancelled: no response and the count unchanged; otherwise one response with the request's ID, a time in [300,600] ms, and the count up by 1 |
| Servers.Server.Report | server.go:80-91 | a message tagged with the server's ID: Processed = count, Queued = inbound queue length, Utilisation in [0,100] |
| Servers.Server.Reset | server.go:121-124 | an empty pool and a zero count; ID and position untouched |
| Servers.Server.GetMetrics | server.go:126-131 | three zero metrics, each with severity 0 |
| Balancers.NextTarget | loadbalancer.go:82-85 | the dispatch index returns to 0 exactly after the last target and otherwise moves on by one, so it stays below the number of targets |
| Balancers.Cursor | loadbalancer.go:73-85 | the index before each request, starting from 0, is always a valid target index |
| Balancers.CursorInRound | loadbalancer.go:73-85 | from a point where the index is 0, the next k requests go to targets 0..k-1 in turn |
| Balancers.CursorAtRoundStart | loadbalancer.go:73-85 | the index is back at 0 after every full round of k requests |
| Balancers.CursorIsMod | loadbalancer.go:73-85 | request j (0-based) goes to target j mod k |
| Balancers.RouteAt | loadbalancer.go:79-85 | in the dispatch route, entry j is j mod k |
| Balancers.FairShare | loadbalancer.go:73-85 | c·k requests deliver exactly c requests to each of the k targets |
| Balancers.DispatchedFairly | loadbalancer.go:73-85 | a load balancer in its round-robin state that has dispatched c full rounds has sent exactly c requests to each target |
| Balancers.BalancerMetrics | loadbalancer.go:89-95 | a load balancer report is [Processed, Queued] in that order |
| Balancers.LoadBalancer.constructor | loadbalancer.go:30-36 | a new load balancer: its ID, type load balancer, no channels, no targets, a zero count |
| Balancers.LoadBalancer.SetPosition | loadbalancer.go:50-52 | only the position changes |
| Balancers.LoadBalancer.SetInChannels | loadbalancer.go:54-57 | the inbound pair is replaced |
| Balancers.LoadBalancer.SetOutChannels | loadbalancer.go:59-64 | exactly one target is appended at the end; earlier targets are unchanged |
| Balancers.LoadBalancer.Run | loadbalancer.go:66-117 | dispatch starts at index 0 and one collector is started per target; with at least one target the round-robin invariant holds |
| Balancers.LoadBalancer.Dispatch | loadbalancer.go:79-85 | the next request is forwarded to the current target; the index moves on with wrap-around and stays in range; the round-robin invariant (the route is j mod k from 0) is preserved |
| Balancers.LoadBalancer.Collect | loadbalancer.go:104-113 | one response is forwarded from the target's queue upstream and the count rises by exactly 1 |
| Balancers.LoadBalancer.Report | loadbalancer.go:86-95 | a message tagged with the ID: Processed = count, Queued = inbound queue length |
| Balancers.LoadBalancer.Reset | loadbalancer.go:119-122 | no targets and a zero count |
| Balancers.LoadBalancer.GetMetrics | loadbalancer.go:124-129 | zero Processed and zero Queued, each with severity 0 |
| Graph.ReplayClosedForm | system.go:144-151 | after wiring links in order, a load balancer's targets are the pairs of its outgoing edges in that order; a client's outbound pair and every inbound pair is the pair of the last edge wired at that end; nothing else is attached |
| Graph.LastAtUnique | system.go:144-151 | when exactly one edge ends at a node, that edge's pair is what the node is attached to |
| Graph.InOutgoing | loadbalancer.go:59-64 | the pair of every edge leaving a node is among its outgoing pairs |
| Graph.OutgoingCount | system.go:145-149 | the outgoing pairs of a node are as many as the links leaving it |
| Graph.OutgoingMatchesEdges | system.go:145-149 | over a full enumeration of the edge store, a node gets one outgoing pair per edge whose source it is |
| Graph.ResetNode | system.go:131 | Reset on the node under one key; every other node of the store is unchanged |
| Graph.LaunchNode | system.go:138 | Run on the node under one key: a load balancer's dispatch index, record of dispatched requests and collectors restart; every other node of the store is unchanged |
| Graph.ConnectOut | system.go:149 | SetOutChannels on the source; every other node of the store is unchanged |
| Graph.ConnectIn | system.go:150 | SetInChannels on the target; every other node of the store is unchanged |
| Graph.ResetAll | system.go:130-132 | in any key order, every node ends up reset |
| Graph.LaunchAll | system.go:137-139 | in any key order, every node ends up launched |
| Graph.WireEdge | system.go:149-150 | the pair becomes the source's outbound and the target's inbound channels; no other node changes |
| Graph.KeyOrder | system.go:145 | the range order visits each key of the edge store exactly once |
| Graph.OrderEnumerates | system.go:145 | wiring in such an order wires every edge exactly once |
| Graph.MakePairs | system.go:146-147 | one new, empty, capacity-1000 pair per edge; no queue is shared between pairs |
| Graph.PlanWiring | system.go:145-147 | the wiring steps planned: every edge of the store exactly once, in the range order, each with a new capacity-1000 pair that no other step shares |
| Graph.WireInOrder | system.go:145-151 | running the planned steps in order leaves each node with its old wiring with these links replayed in order; every other part of its view is unchanged |
| Graph.WireAll | system.go:144-152 | every edge is wired exactly once, with fresh unshared capacity-1000 pairs, and each node's wiring is its old wiring with the links replayed |
| Graph.Restart | system.go:130-139 | every node is reset, then wired, then launched; the links enumerate the edge store with fresh unshared pairs |
| Graph.NewNode | system.go:90-102 | a new node of the requested type under the given ID, at (500,150), unattached, with reset counters |
| Graph.SetNodePosition | system.go:18 | only the node's position changes |
| Graph.System.constructor | system.go:72-87 | an empty node and edge store, not resetting, generation 0 |
| Graph.System.AddNode | system.go:89-106 | exactly one node is added under its own ID, of the requested type, at (500,150); other nodes and all edges are unchanged; a wirable graph stays wirable |
| Graph.System.AddEdge | system.go:154-161 | exactly one edge with the given endpoints is added under its fresh ID; the nodes are untouched |
| Graph.System.Cancel | client.go:122-126 | the current scope is cancelled |
| Graph.System.Start | system.go:108-142 | while resetting: an error naming the system and no state change. Otherwise: not resetting, a new uncancelled generation, the previous one retired. Every edge is wired exactly once with fresh unshared pairs, and every node ends up reset, wired and launched |
| Topology.Place | systemconfig.go:4-8 | AddNode then SetPosition: one new node of the type at the given position, unattached |
| Topology.AddFrontNodes | systemconfig.go:4-14 | the client at (400,425) and the load balancer at (700,425) are added |
| Topology.AddServerNodes | systemconfig.go:16-32 | three servers at (1050,225), (1050,425), (1050,625) are added |
| Topology.AddDefaultEdges | systemconfig.go:34-37 | exactly the four edges client→LB, LB→server1, LB→server2, LB→server3 are added |
| Topology.DefaultWired | systemconfig.go:34-37 | every default edge runs from a sender to a receiver, so a graph that InitEdges can wire stays wirable |
| Topology.DefaultSystem | systemconfig.go:3-40 | returns the same system; exactly five new nodes (one client, one load balancer, three servers) at their layout positions and four new edges; wirability is preserved |
| Topology.DefaultEdge | systemconfig.go:34-37 | default edge j ends at node j+1 under edge ID j |
| Topology.ClientFeedsBalancer | systemconfig.go:34 | after wiring, the client's outbound pair and the load balancer's inbound pair are the same pair |
| Topology.ServerInbound | systemconfig.go:35-37 | after wiring, each server's inbound pair is the pair of the edge that ends at it |
| Topology.BalancerTargets | systemconfig.go:35-37 | after wiring, the load balancer has exactly three targets, which include the pairs of the three server edges |
| Topology.ServerFedByBalancer | systemconfig.go:35-37 | each server's inbound pair is one of the load balancer's targets |
| Topology.DistinctLinks | system.go:146-147 | different default edges get different request queues |
| Topology.DefaultWiring | systemconfig.go:34-37 | for every wiring order, the load balancer has three targets and its inbound pair is the client's outbound pair. The three servers' inbound pairs are three different targets of the load balancer |
| Topology.NewDefaultSystem | systemconfig.go:3-40 | a new system with the default topology: valid, wirable, generation 0, its nodes unattached |
| Topology.StartUnwired | system.go:108-151 | Start on an unattached default system leaves each node with the wiring its links give it, and a load balancer with its dispatch index at 0, nothing dispatched and one collector per target |
| Topology.StartDefault | systemconfig.go:34-37 | after Start on a new default system, the load balancer has exactly three targets and the client's outbound pair is set and equals the load balancer's inbound pair. Each server's inbound pair is a different one of the load balancer's targets. The load balancer is in its round-robin state with three collectors, so Balancers.DispatchedFairly applies to it |

## Left out

- Concurrency. Goroutines, interleavings, `select` fairness, `sync.WaitGroup` and `context` are replaced by step methods and a generation counter; no interleaving of steps is modelled.
- Channel blocking and back-pressure. A queue records its capacity but a send never blocks; a full slot pool is modelled by `Servers.Server.Receive` requiring a free slot.
- The shared `messages` channel (system.go:75). Reports are returned as `Message` values instead of being sent.
- Wall-clock time and randomness. `time.Now`, `time.Since`, `time.Sleep` and `rand.Intn` are parameters: send times, the receive time, elapsed whole seconds, the cancellation iteration and the random draw.
- Floating point. Severities are exact reals. Utilisation is exact integer arithmetic; for 0..20 occupied slots it agrees with the source's float64 expression.
- `shortuuid`. Node and edge IDs are parameters that must be fresh.
- `atomic.AddInt64` is a plain increment. `log.Printf` calls are not modelled.
- routes.go (HTTP routing, JSON, the websocket pump) and main.go (server setup) are not part of this model.
- Graph.System.AddNode: requires one of the three known types. For any other type the source calls SetPosition on a nil node and panics.
- Graph.System.Start: requires every edge to run from an existing sender to an existing receiver (`WellWired`). Otherwise the source's type assertions in InitEdges panic. A node deleted with its edges left behind (routes.go) breaks this.
- Balancers.LoadBalancer.Dispatch: requires the index to name a target. With no targets, `lb.Targets[targetNumber]` (loadbalancer.go:81) indexes an empty slice and panics; the model requires a target.
- Graph.WireAll: states that each pair is fresh, unshared and of capacity 1000, but not that it is still empty at the end. Graph.MakePairs states emptiness when the pairs are made.
- Graph.Restart: likewise does not state that the queue pairs are still empty when Start returns.
- Graph.System.Start: likewise does not state that the queue pairs are still empty when it returns.
- Servers.Server.Receive: the channel receive and the slot acquisition are one step. The source may hold a received request while it waits for a slot.
- Servers.Server.Reset: also clears the running units. Start calls Reset only after every unit of the previous run has finished, so the units are always finished already.
- Clients.Client.Produce: each request is recorded in the same step as its send. In the source, a response can arrive between the send and the Put; Clients.Client.ReceiveResponse states what that response then adds (the saturated latency), but the model never takes that interleaving.
- Clients.Client.Produce: clock readings are whole milliseconds, taken at the start of each iteration; the sleep is modelled only as the 10 ms spacing of those readings.
- Clients.Client.ReceiveResponse: the latency total is an unbounded integer; the source's int cannot wrap within a million saturated latencies, so this changes nothing for a 1000-request run.
- Topology.DefaultSystem: for the new nodes it states their IDs, types, positions, freshness and that they are unattached, not their whole counters.
- Graph.System: `isResetting` is true only inside Start's critical section, which is one atomic step here, so a second Start never sees it set from a concurrent call.
