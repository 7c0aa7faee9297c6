/** The client node (client.go): a producer that sends a fixed workload of
    numbered requests, and a consumer that accumulates response latencies and
    reports them on every tick. The two goroutines of Run become the method
    Produce (the whole producer loop) and the step methods ReceiveResponse,
    Tick and Cancelled (one case each of the consumer's select). Times are
    milliseconds passed in by the caller. */
module Clients {
  import opened Wire
  import opened Metrics

  /** Size of the workload and the pause after each send, in milliseconds
      (client.go:11-14). */
  const NumRequests: nat := 1000
  const RequestIntervalMs: nat := 10

  /** The largest time.Duration in whole milliseconds: Time.Sub saturates at
      2^63-1 ns (or -2^63 ns), which Milliseconds truncates to this magnitude. */
  const MaxDurationMs: int := 9223372036854

  /** The latency the consumer adds up: the receive time minus the send time
      as Time.Sub and Milliseconds compute it (client.go:101-102), which
      saturates instead of overflowing. */
  function Latency(receivedAt: int, sentAt: int): (ms: int)
    ensures -MaxDurationMs <= ms <= MaxDurationMs
    ensures -MaxDurationMs <= receivedAt - sentAt <= MaxDurationMs ==> ms == receivedAt - sentAt
    ensures receivedAt - sentAt > MaxDurationMs ==> ms == MaxDurationMs
    ensures receivedAt - sentAt < -MaxDurationMs ==> ms == -MaxDurationMs
  {
    if receivedAt - sentAt > MaxDurationMs then MaxDurationMs
    else if receivedAt - sentAt < -MaxDurationMs then -MaxDurationMs
    else receivedAt - sentAt
  }

  /** Clock readings of successive producer iterations lie at least one
      request interval apart: each iteration sleeps that long (client.go:76). */
  ghost predicate ClockSpaced(sentAt: seq<int>)
  {
    forall i :: 0 < i < |sentAt| ==> SleptBefore(sentAt, i)
  }

  /** Iteration i began at least one request interval after iteration i - 1. */
  ghost predicate SleptBefore(sentAt: seq<int>, i: nat)
    requires 0 < i < |sentAt|
  {
    sentAt[i] - sentAt[i - 1] >= RequestIntervalMs
  }

  /** Clock readings of the producer's iterations, as the sleep after each send spaces them. */
  type Clock = s: seq<int> | ClockSpaced(s) witness []

  /** Requests sent j - i iterations apart are at least j - i intervals apart. */
  ghost predicate Spaced(rs: seq<Request>)
  {
    forall i, j :: 0 <= i < j < |rs| ==> rs[j].sentAt - rs[i].sentAt >= (j - i) * RequestIntervalMs
  }

  lemma {:induction false} ClockGap(sentAt: seq<int>, i: nat, j: nat)
    requires ClockSpaced(sentAt) && i <= j < |sentAt|
    ensures sentAt[j] - sentAt[i] >= (j - i) * RequestIntervalMs
  {
    if i < j {
      ClockGap(sentAt, i, j - 1);
      assert SleptBefore(sentAt, j);
    }
  }

  /** The requests of the producer are spaced by the request interval. */
  lemma ProducedSpaced(sentAt: seq<int>, n: nat)
    requires ClockSpaced(sentAt) && n <= |sentAt|
    ensures Spaced(Produced(sentAt, n))
  {
    var rs := Produced(sentAt, n);
    forall i, j | 0 <= i < j < |rs|
      ensures rs[j].sentAt - rs[i].sentAt >= (j - i) * RequestIntervalMs
    {
      ClockGap(sentAt, i, j);
    }
  }

  lemma DivBounds(n: nat, b: int)
    requires b > 0
    ensures 0 <= (n / b) * b <= n < (n / b + 1) * b
  {
    var q := n / b;
    assert n == q * b + n % b;
    assert (q + 1) * b == q * b + b;
  }

  /** Go's `/` on int: truncates toward zero. */
  function GoDiv(a: int, b: int): (q: int)
    requires b > 0
    ensures a >= 0 ==> 0 <= q * b <= a < (q + 1) * b
    ensures a < 0 ==> (q - 1) * b < a <= q * b <= 0
  {
    if a >= 0 then DivBounds(a, b); a / b
    else
      var q' := (-a) / b;
      DivBounds(-a, b);
      assert (-q') * b == -(q' * b) && (-q' - 1) * b == -((q' + 1) * b);
      -q'
  }

  /** The requests a producer sends in its first n iterations, in order. */
  function Produced(sentAt: seq<int>, n: nat): (rs: seq<Request>)
    requires n <= |sentAt|
    ensures |rs| == n
    ensures forall j :: 0 <= j < n ==> rs[j] == Request(j, sentAt[j])
  {
    if n == 0 then [] else Produced(sentAt, n - 1) + [Request(n - 1, sentAt[n - 1])]
  }

  /** What the request store records after the first n iterations. */
  function Recorded(sentAt: seq<int>, n: nat): (m: map<int, Request>)
    requires n <= |sentAt|
    ensures forall j :: j in m <==> 0 <= j < n
    ensures forall j :: 0 <= j < n ==> m[j] == Request(j, sentAt[j])
  {
    if n == 0 then map[] else Recorded(sentAt, n - 1)[n - 1 := Request(n - 1, sentAt[n - 1])]
  }

  /** Storing under a key after a merge is storing into the merged-in map. */
  lemma UpdateMerged(before: map<int, Request>, added: map<int, Request>, k: int, r: Request)
    ensures (before + added)[k := r] == before + added[k := r]
  {
  }

  /** Sent requests by sequence number (client.go:143-166). A lookup of a
      number never stored yields the zero Request. */
  class RequestStore {
    var m: map<int, Request>

    constructor ()
      ensures m == map[]
    {
      m := map[];
    }

    method Put(id: int, req: Request)
      modifies this
      ensures m == old(m)[id := req]
    {
      m := m[id := req];
    }

    function Get(id: int): (r: Request)
      reads this
      ensures id in m ==> r == m[id]
      ensures id !in m ==> r == ZeroRequest
    {
      if id in m then m[id] else ZeroRequest
    }
  }

  class Client {
    const id: string
    const kind: string
    var position: Position

    var outRequests: Queue?<Request>
    var outResponses: Queue?<Response>
    var requestStore: RequestStore

    // State of the consumer goroutine started by Run (client.go:91-92).
    var totalLatency: int
    var numResponses: nat
    var consuming: bool

    /** NewClient (client.go:28-35). */
    constructor (id: string)
      ensures this.id == id && kind == ClientType && position == Position(0, 0)
      ensures outRequests == null && outResponses == null
      ensures fresh(requestStore) && requestStore.m == map[]
      ensures totalLatency == 0 && numResponses == 0 && !consuming
    {
      this.id := id;
      kind := ClientType;
      position := Position(0, 0);
      outRequests, outResponses := null, null;
      requestStore := new RequestStore();
      totalLatency, numResponses, consuming := 0, 0, false;
    }

    method SetPosition(p: Position)
      modifies this`position
      ensures position == p
    {
      position := p;
    }

    /** Attaches the pair of an outgoing edge; the last call wins. */
    method SetOutChannels(requests: Queue<Request>, responses: Queue<Response>)
      modifies this`outRequests, this`outResponses
      ensures outRequests == requests && outResponses == responses
    {
      outRequests, outResponses := requests, responses;
    }

    /** What Run sets up before its goroutines start: the consumer's running
        totals at zero (client.go:91-92). */
    method Run()
      modifies this`totalLatency, this`numResponses, this`consuming
      ensures totalLatency == 0 && numResponses == 0 && consuming
    {
      totalLatency, numResponses, consuming := 0, 0, true;
    }

    /** The producer goroutine (client.go:62-80). sentAt[i] is the clock
        reading at iteration i; cancelAt is the first iteration at which the
        cancellation of the run is observed. A send on a nil channel never
        completes, so an unwired client sends nothing. */
    method Produce(sentAt: Clock, cancelAt: nat) returns (sent: nat)
      requires |sentAt| >= NumRequests
      modifies outRequests, requestStore
      ensures outRequests == null ==> sent == 0
      ensures outRequests != null ==> sent == if cancelAt < NumRequests then cancelAt else NumRequests
      ensures outRequests != null ==> outRequests.items == old(outRequests.items) + Produced(sentAt, sent)
      ensures requestStore.m == old(requestStore.m) + Recorded(sentAt, sent)
    {
      sent := 0;
      if outRequests == null {
        assert Recorded(sentAt, 0) == map[];
        return;
      }
      while sent < NumRequests && sent < cancelAt
        invariant sent <= NumRequests && sent <= cancelAt
        invariant outRequests.items == old(outRequests.items) + Produced(sentAt, sent)
        invariant requestStore.m == old(requestStore.m) + Recorded(sentAt, sent)
      {
        var request := Request(sent, sentAt[sent]);
        outRequests.Send(request);
        requestStore.Put(sent, request);
        UpdateMerged(old(requestStore.m), Recorded(sentAt, sent), sent, request);
        sent := sent + 1;
      }
    }

    /** The response case of the consumer (client.go:98-104): the latency is
        the receive time minus the recorded send time of the request with the
        same sequence number. A number never recorded has the zero time as its
        send time, so any clock reading 2^63 ns past it saturates the latency. */
    method ReceiveResponse(now: int)
      requires consuming && outResponses != null && outResponses.items != []
      modifies this`totalLatency, this`numResponses, outResponses
      ensures outResponses.items == old(outResponses.items)[1..]
      ensures numResponses == old(numResponses) + 1
      ensures totalLatency
           == old(totalLatency) + Latency(now, requestStore.Get(old(outResponses.items)[0].id).sentAt)
      ensures old(outResponses.items)[0].id !in requestStore.m && now > MaxDurationMs ==>
                totalLatency == old(totalLatency) + MaxDurationMs
    {
      var response := outResponses.Receive();
      numResponses := numResponses + 1;
      totalLatency := totalLatency + Latency(now, requestStore.Get(response.id).sentAt);
    }

    /** The report a tick emits, given the whole seconds elapsed since the
        producer started (client.go:106-120). */
    function Report(elapsedSeconds: nat): (r: Option<Message>)
      reads this
      ensures r.None? <==> elapsedSeconds == 0 || numResponses == 0
      ensures r.Some? ==> r.value.nodeId == id && |r.value.metrics| == 2
      ensures r.Some? ==> r.value.metrics[0] == NewNumResponses(numResponses)
      ensures r.Some? ==> r.value.metrics[1] == NewAvgLatency(GoDiv(totalLatency, numResponses))
    {
      if elapsedSeconds == 0 || numResponses == 0 then None
      else Some(Message(id, [NewNumResponses(numResponses),
                             NewAvgLatency(GoDiv(totalLatency, numResponses))]))
    }

    /** The tick case of the consumer (client.go:106-127). Once every request
        has been answered the client cancels the run and stops consuming. */
    method Tick(elapsedSeconds: nat) returns (msg: Option<Message>, cancel: bool)
      requires consuming
      modifies this`consuming
      ensures msg == Report(elapsedSeconds)
      ensures cancel <==> msg.Some? && numResponses == NumRequests
      ensures consuming == !cancel
    {
      msg := Report(elapsedSeconds);
      cancel := msg.Some? && numResponses == NumRequests;
      consuming := !cancel;
    }

    /** The cancellation case of the consumer (client.go:95-97). */
    method Cancelled()
      requires consuming
      modifies this`consuming
      ensures !consuming
    {
      consuming := false;
    }

    /** Reset (client.go:132-134): a new, empty request store. */
    method Reset()
      modifies this`requestStore
      ensures fresh(requestStore) && requestStore.m == map[]
    {
      requestStore := new RequestStore();
    }

    /** GetMetrics (client.go:136-141): the zero-state metrics. */
    function GetMetrics(): (ms: seq<Metric>)
      ensures |ms| == 2 && ms[0].name == "Responses" && ms[1].name == "Avg. Latency"
      ensures forall i :: 0 <= i < 2 ==> ms[i].value == 0 && ms[i].severity == 0.0
    {
      [NewNumResponses(0), NewAvgLatency(0)]
    }
  }
}
