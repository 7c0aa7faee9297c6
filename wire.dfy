/** Value types shared by every node of the simulation (system.go:23-56),
    and the queues that the wiring step allocates per edge. */
module Wire {

  /** Node type tags (system.go:52-56). */
  const ClientType: string := "client"
  const ServerType: string := "server"
  const LoadBalancerType: string := "load balancer"

  /** Buffer size of each per-edge queue allocated by InitEdges (system.go:146-147). */
  const QueueCapacity: nat := 1000

  datatype Option<T> = None | Some(value: T)

  /** A request: its sequence number and the time at which it was sent.
      Times are whole milliseconds since Go's zero time.Time. */
  datatype Request = Request(id: int, sentAt: int)

  /** The zero value of a Go Request: ID 0 and the zero time. */
  const ZeroRequest: Request := Request(0, 0)

  /** A response echoes the request's sequence number; a server leaves the
      receive timestamp at its zero value (server.go:116). */
  datatype Response = Response(id: int, receivedAt: int)

  datatype Position = Position(x: int, y: int)

  /** A Go channel: a FIFO of values in flight. The buffer size is recorded
      but sends are not blocked when it is reached. */
  class Queue<T> {
    const capacity: nat
    var items: seq<T>

    constructor (capacity: nat)
      ensures this.capacity == capacity && items == []
    {
      this.capacity := capacity;
      items := [];
    }

    /** `ch <- x` */
    method Send(x: T)
      modifies this
      ensures items == old(items) + [x]
    {
      items := items + [x];
    }

    /** `x := <-ch`, taken only when a value is waiting. */
    method Receive() returns (x: T)
      requires items != []
      modifies this
      ensures x == old(items)[0] && items == old(items)[1..]
    {
      x := items[0];
      items := items[1..];
    }
  }

  /** Number of values waiting in a channel; `len` of a nil channel is 0. */
  function Len<T>(q: Queue?<T>): (n: nat)
    reads q
    ensures q == null ==> n == 0
    ensures q != null ==> n == |q.items|
  {
    if q == null then 0 else |q.items|
  }

  /** A request/response channel pair. As a load balancer's downstream target
      (loadbalancer.go:24-27) and as the pair InitEdges allocates for one edge. */
  datatype Target = Target(requests: Queue<Request>, responses: Queue<Response>)
}
