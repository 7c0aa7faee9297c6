/** The server node (server.go): a receive loop that takes requests into a
    bounded pool of processing slots, processing units that each answer one
    request, and a periodic report. The goroutines of Run and Process become
    the step methods Receive and Process; `inFlight` holds the requests of
    the processing units that have started and not yet finished. */
module Servers {
  import opened Wire
  import opened Metrics

  /** Capacity of the slot pool and bounds of the simulated processing time (server.go:13-17). */
  const MaxRoutines: nat := 20
  const ProcessingTimeLower: nat := 300
  const ProcessingTimeUpper: nat := 600

  /** The simulated processing time in milliseconds, from a draw of
      `rand.Intn(ProcessingTimeUpper - ProcessingTimeLower + 1)` (server.go:112). */
  function ProcessingTime(draw: nat): (ms: nat)
    requires draw < ProcessingTimeUpper - ProcessingTimeLower + 1
    ensures ProcessingTimeLower <= ms <= ProcessingTimeUpper
  {
    draw + ProcessingTimeLower
  }

  /** Every processing time in the range is produced by some draw. */
  lemma ProcessingTimeCoversRange(ms: nat)
    requires ProcessingTimeLower <= ms <= ProcessingTimeUpper
    ensures exists draw: nat :: draw < ProcessingTimeUpper - ProcessingTimeLower + 1 && ProcessingTime(draw) == ms
  {
    var draw: nat := ms - ProcessingTimeLower;
    assert ProcessingTime(draw) == ms;
  }

  /** Occupied slots as a percentage of the pool (server.go:81). */
  function Utilisation(occupied: nat): (pct: nat)
    requires occupied <= MaxRoutines
    ensures pct <= 100
    ensures pct * MaxRoutines == occupied * 100
  {
    occupied * 100 / MaxRoutines
  }

  /** The metrics of one server report, in the order the source sends them. */
  function ServerMetrics(processed: int, queued: nat, occupied: nat): (ms: seq<Metric>)
    requires occupied <= MaxRoutines
    ensures |ms| == 3
    ensures ms[0] == NewProcessed(processed) && ms[1] == NewQueued(queued)
    ensures ms[2] == NewUtilisation(Utilisation(occupied))
    ensures 0 <= ms[2].value <= 100 && 0.0 <= ms[2].severity <= 1.0
  {
    [NewProcessed(processed), NewQueued(queued), NewUtilisation(Utilisation(occupied))]
  }

  class Server {
    const id: string
    const kind: string
    var position: Position

    var InRequests: Queue?<Request>
    var InResponses: Queue?<Response>

    /** Occupied slots of the pool: `len(s.routines)`. */
    var routines: nat
    /** The requests of the processing units currently running. */
    var inFlight: seq<Request>
    var numProcessed: int

    /** Every running processing unit holds exactly one slot, so the pool
        is never over capacity. */
    ghost predicate Valid()
      reads this
    {
      routines == |inFlight| <= MaxRoutines
    }

    /** NewServer (server.go:32-40). */
    constructor (id: string)
      ensures Valid()
      ensures this.id == id && kind == ServerType && position == Position(0, 0)
      ensures InRequests == null && InResponses == null
      ensures routines == 0 && inFlight == [] && numProcessed == 0
    {
      this.id := id;
      kind := ServerType;
      position := Position(0, 0);
      InRequests, InResponses := null, null;
      routines, inFlight, numProcessed := 0, [], 0;
    }

    method SetPosition(p: Position)
      modifies this`position
      ensures position == p
    {
      position := p;
    }

    /** Attaches the pair of an incoming edge; the last call wins (server.go:58-61). */
    method SetInChannels(requests: Queue<Request>, responses: Queue<Response>)
      modifies this`InRequests, this`InResponses
      ensures InRequests == requests && InResponses == responses
    {
      InRequests, InResponses := requests, responses;
    }

    /** The request case of the receive loop (server.go:75-79): take the next
        request, acquire a slot and start a processing unit for it. The case
        is taken when a request is waiting and a slot is free. */
    method Receive()
      requires Valid()
      requires InRequests != null && InRequests.items != []
      requires routines < MaxRoutines
      modifies this`routines, this`inFlight, InRequests
      ensures Valid()
      ensures InRequests.items == old(InRequests.items)[1..]
      ensures inFlight == old(inFlight) + [old(InRequests.items)[0]]
      ensures routines == old(routines) + 1
    {
      var request := InRequests.Receive();
      routines := routines + 1;
      inFlight := inFlight + [request];
    }

    /** Processing unit u finishes (server.go:97-119). If the run was already
        cancelled it answers nothing; otherwise it sleeps for the drawn
        processing time, sends one response carrying the request's ID and
        counts it. Either way it releases exactly one slot. */
    method Process(u: nat, cancelled: bool, draw: nat) returns (sleptMs: nat)
      requires Valid()
      requires u < |inFlight|
      requires draw < ProcessingTimeUpper - ProcessingTimeLower + 1
      requires !cancelled ==> InResponses != null
      modifies this`routines, this`inFlight, this`numProcessed, InResponses
      ensures Valid()
      ensures routines == old(routines) - 1
      ensures inFlight == old(inFlight[..u] + inFlight[u + 1..])
      ensures cancelled ==> sleptMs == 0 && numProcessed == old(numProcessed)
      ensures cancelled && InResponses != null ==> InResponses.items == old(InResponses.items)
      ensures !cancelled ==> ProcessingTimeLower <= sleptMs <= ProcessingTimeUpper
      ensures !cancelled ==> InResponses.items == old(InResponses.items) + [Response(old(inFlight[u]).id, 0)]
      ensures !cancelled ==> numProcessed == old(numProcessed) + 1
    {
      var request := inFlight[u];
      sleptMs := 0;
      if !cancelled {
        sleptMs := ProcessingTime(draw);
        InResponses.Send(Response(request.id, 0));
        numProcessed := numProcessed + 1;
      }
      inFlight := inFlight[..u] + inFlight[u + 1..];
      routines := routines - 1;
    }

    /** The tick case of the receive loop (server.go:80-91). */
    function Report(): (m: Message)
      requires Valid()
      reads this, InRequests
      ensures m.nodeId == id
      ensures m.metrics == ServerMetrics(numProcessed, Len(InRequests), routines)
      ensures 0 <= m.metrics[2].value <= 100
    {
      Message(id, ServerMetrics(numProcessed, Len(InRequests), routines))
    }

    /** Reset (server.go:121-124): an empty pool and a zero count. Start calls
        it only after every unit of the previous run has finished, so no
        processing unit is running. */
    method Reset()
      modifies this`routines, this`inFlight, this`numProcessed
      ensures Valid()
      ensures routines == 0 && inFlight == [] && numProcessed == 0
    {
      routines, inFlight, numProcessed := 0, [], 0;
    }

    /** GetMetrics (server.go:126-131): what a reset server with an empty
        queue reports. */
    function GetMetrics(): (ms: seq<Metric>)
      ensures ms == ServerMetrics(0, 0, 0)
      ensures forall i :: 0 <= i < |ms| ==> ms[i].value == 0 && ms[i].severity == 0.0
    {
      [NewProcessed(0), NewQueued(0), NewUtilisation(0)]
    }
  }
}
