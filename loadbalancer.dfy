/** The load balancer node (loadbalancer.go): a dispatch loop that forwards
    each incoming request to its targets in strict round-robin order, one
    collector per target that forwards responses back, and a periodic report.
    The goroutines of Run become the step methods Dispatch and Collect. */
module Balancers {
  import opened Wire
  import opened Metrics

  /** The dispatch index after forwarding to target i of k: one step on, back
      to 0 at the end (loadbalancer.go:82-85). */
  function NextTarget(i: nat, k: nat): (j: nat)
    requires i < k
    ensures j < k
    ensures j == 0 <==> i == k - 1
    ensures j != 0 ==> j == i + 1
  {
    if i + 1 == k then 0 else i + 1
  }

  /** The index the dispatch loop holds before its j-th request (0-based),
      starting from 0 (loadbalancer.go:73). */
  function Cursor(j: nat, k: nat): (i: nat)
    requires k > 0
    ensures i < k
  {
    if j == 0 then 0 else NextTarget(Cursor(j - 1, k), k)
  }

  /** The targets of the first m requests, in dispatch order. */
  function Route(m: nat, k: nat): (r: seq<nat>)
    requires k > 0
    ensures |r| == m
  {
    if m == 0 then [] else Route(m - 1, k) + [Cursor(m - 1, k)]
  }

  /** From a point where the index is back at 0, the next k requests go to
      targets 0, 1, ..., k-1 in turn. */
  lemma {:induction false} CursorInRound(b: nat, j: nat, k: nat)
    requires j < k && Cursor(b, k) == 0
    ensures Cursor(b + j, k) == j
  {
    if j > 0 {
      CursorInRound(b, j - 1, k);
    }
  }

  /** The index is back at 0 after every full round of k requests. */
  lemma {:induction false} CursorAtRoundStart(c: nat, k: nat)
    requires k > 0
    ensures Cursor(c * k, k) == 0
  {
    if c > 0 {
      var b := (c - 1) * k;
      assert c * k == b + (k - 1) + 1;
      CursorAtRoundStart(c - 1, k);
      CursorInRound(b, k - 1, k);
    }
  }

  /** j is q full rounds of k followed by r more. */
  lemma Rounds(j: nat, k: nat) returns (q: nat, r: nat)
    requires k > 0
    ensures j == q * k + r && r < k && r == j % k
  {
    q, r := j / k, j % k;
  }

  /** The j-th request goes to target j mod k. */
  lemma CursorIsMod(j: nat, k: nat)
    requires k > 0
    ensures Cursor(j, k) == j % k
  {
    var q, r := Rounds(j, k);
    CursorAtRoundStart(q, k);
    CursorInRound(q * k, r, k);
  }

  /** Request j of the route goes to target j mod k. */
  lemma {:induction false} RouteAt(m: nat, k: nat, j: nat)
    requires k > 0 && j < m
    ensures Route(m, k)[j] == j % k
  {
    if j == m - 1 {
      CursorIsMod(j, k);
    } else {
      RouteAt(m - 1, k, j);
    }
  }

  /** How many entries of s name target t. */
  function Count(s: seq<nat>, t: nat): (n: nat)
    ensures n <= |s|
  {
    if s == [] then 0 else Count(s[..|s| - 1], t) + (if s[|s| - 1] == t then 1 else 0)
  }

  /** One more request adds one to the count of the target it goes to. */
  lemma RouteStep(m: nat, next: nat, k: nat, t: nat)
    requires k > 0 && next == m + 1
    ensures Count(Route(next, k), t) == Count(Route(m, k), t) + (if Cursor(m, k) == t then 1 else 0)
  {
    var r := Route(next, k);
    assert r[..|r| - 1] == Route(m, k);
  }

  /** How many of the first m requests go to target t. */
  function Hits(m: nat, k: nat, t: nat): nat
    requires k > 0
  {
    if m == 0 then 0 else Hits(m - 1, k, t) + (if Cursor(m - 1, k) == t then 1 else 0)
  }

  /** Counting target t in the route is counting the requests sent to it. */
  lemma {:induction false} CountIsHits(m: nat, k: nat, t: nat)
    requires k > 0
    ensures Count(Route(m, k), t) == Hits(m, k, t)
  {
    if m > 0 {
      CountIsHits(m - 1, k, t);
      RouteStep(m - 1, m, k, t);
    }
  }

  /** From a round start, the next j requests add one to each of the
      targets 0 .. j-1 and nothing to the others. */
  lemma {:induction false} RoundHits(b: nat, j: nat, k: nat, t: nat)
    requires j <= k && t < k && Cursor(b, k) == 0
    ensures Hits(b + j, k, t) == Hits(b, k, t) + (if t < j then 1 else 0)
  {
    if j > 0 {
      RoundHits(b, j - 1, k, t);
      CursorInRound(b, j - 1, k);
    }
  }

  /** Fairness: c rounds of k requests deliver exactly c requests to each target. */
  lemma {:induction false} FairShare(c: nat, k: nat, t: nat)
    requires t < k
    ensures Count(Route(c * k, k), t) == c
  {
    CountIsHits(c * k, k, t);
    RoundsHits(c, k, t);
  }

  /** c full rounds from the start send c requests to each target. */
  lemma {:induction false} RoundsHits(c: nat, k: nat, t: nat)
    requires t < k
    ensures Hits(c * k, k, t) == c
  {
    if c > 0 {
      var b := (c - 1) * k;
      assert c * k == b + k;
      RoundsHits(c - 1, k, t);
      CursorAtRoundStart(c - 1, k);
      RoundHits(b, k, k, t);
    }
  }

  /** A load balancer that has dispatched c full rounds since Run has sent
      exactly c requests to each of its targets. */
  lemma DispatchedFairly(lb: LoadBalancer, c: nat, t: nat)
    requires lb.RoundRobin() && |lb.dispatched| == c * |lb.Targets| && t < |lb.Targets|
    ensures Count(lb.dispatched, t) == c
  {
    FairShare(c, |lb.Targets|, t);
  }

  /** The metrics of one load balancer report, in the order the source sends them. */
  function BalancerMetrics(processed: int, queued: nat): (ms: seq<Metric>)
    ensures |ms| == 2 && ms[0] == NewProcessed(processed) && ms[1] == NewQueued(queued)
  {
    [NewProcessed(processed), NewQueued(queued)]
  }

  class LoadBalancer {
    const id: string
    const kind: string
    var position: Position

    var InRequests: Queue?<Request>
    var InResponses: Queue?<Response>
    var Targets: seq<Target>
    var numProcessed: int

    // State of the goroutines started by Run: the dispatch index and the
    // number of collectors (loadbalancer.go:73, 100-116).
    var targetNumber: nat
    var collectors: nat
    /** The target index of every request dispatched since Run. */
    ghost var dispatched: seq<nat>

    /** The dispatch loop is where strict round-robin from target 0 puts it. */
    ghost predicate RoundRobin()
      reads this
    {
      && |Targets| > 0
      && dispatched == Route(|dispatched|, |Targets|)
      && targetNumber == Cursor(|dispatched|, |Targets|)
    }

    /** NewLoadBalancer (loadbalancer.go:30-36). */
    constructor (id: string)
      ensures this.id == id && kind == LoadBalancerType && position == Position(0, 0)
      ensures InRequests == null && InResponses == null && Targets == []
      ensures numProcessed == 0 && targetNumber == 0 && collectors == 0
    {
      this.id := id;
      kind := LoadBalancerType;
      position := Position(0, 0);
      InRequests, InResponses, Targets := null, null, [];
      numProcessed, targetNumber, collectors := 0, 0, 0;
      dispatched := [];
    }

    method SetPosition(p: Position)
      modifies this`position
      ensures position == p
    {
      position := p;
    }

    /** Replaces the incoming pair; the last call wins (loadbalancer.go:54-57). */
    method SetInChannels(requests: Queue<Request>, responses: Queue<Response>)
      modifies this`InRequests, this`InResponses
      ensures InRequests == requests && InResponses == responses
    {
      InRequests, InResponses := requests, responses;
    }

    /** Adds one downstream target at the end (loadbalancer.go:59-64). */
    method SetOutChannels(requests: Queue<Request>, responses: Queue<Response>)
      modifies this`Targets
      ensures Targets == old(Targets) + [Target(requests, responses)]
    {
      Targets := Targets + [Target(requests, responses)];
    }

    /** What Run sets up before its goroutines start: the dispatch index at 0
        and one collector per target (loadbalancer.go:73, 100-116). */
    method Run()
      modifies this`targetNumber, this`collectors, this`dispatched
      ensures targetNumber == 0 && collectors == |Targets| && dispatched == []
      ensures |Targets| > 0 ==> RoundRobin()
    {
      targetNumber, collectors := 0, |Targets|;
      dispatched := [];
    }

    /** The request case of the dispatch loop (loadbalancer.go:79-85): forward
        the next request to the current target and move the index on. The
        index must name a target: with no targets the source indexes an empty
        slice. */
    method Dispatch()
      requires InRequests != null && InRequests.items != []
      requires targetNumber < |Targets|
      modifies this`targetNumber, this`dispatched, InRequests, Targets[targetNumber].requests
      ensures targetNumber < |Targets|
      ensures targetNumber == NextTarget(old(targetNumber), |Targets|)
      ensures dispatched == old(dispatched) + [old(targetNumber)]
      ensures old(RoundRobin()) ==> RoundRobin()
      ensures Targets[old(targetNumber)].requests != InRequests ==>
                && InRequests.items == old(InRequests.items)[1..]
                && Targets[old(targetNumber)].requests.items
                   == old(Targets[targetNumber].requests.items) + [old(InRequests.items)[0]]
      ensures Targets[old(targetNumber)].requests == InRequests ==>
                InRequests.items == old(InRequests.items)[1..] + [old(InRequests.items)[0]]
    {
      var request := InRequests.Receive();
      Targets[targetNumber].requests.Send(request);
      dispatched := dispatched + [targetNumber];
      targetNumber := NextTarget(targetNumber, |Targets|);
    }

    /** One step of collector t (loadbalancer.go:106-113): forward a response
        from target t back upstream and count it. */
    method Collect(t: nat)
      requires t < collectors && t < |Targets|
      requires Targets[t].responses.items != [] && InResponses != null
      modifies this`numProcessed, Targets[t].responses, InResponses
      ensures numProcessed == old(numProcessed) + 1
      ensures Targets[t].responses != InResponses ==>
                && Targets[t].responses.items == old(Targets[t].responses.items)[1..]
                && InResponses.items == old(InResponses.items) + [old(Targets[t].responses.items)[0]]
      ensures Targets[t].responses == InResponses ==>
                InResponses.items == old(InResponses.items)[1..] + [old(InResponses.items)[0]]
    {
      var response := Targets[t].responses.Receive();
      InResponses.Send(response);
      numProcessed := numProcessed + 1;
    }

    /** The tick case of the dispatch loop (loadbalancer.go:86-95). */
    function Report(): (m: Message)
      reads this, InRequests
      ensures m.nodeId == id && m.metrics == BalancerMetrics(numProcessed, Len(InRequests))
    {
      Message(id, BalancerMetrics(numProcessed, Len(InRequests)))
    }

    /** Reset (loadbalancer.go:119-122): no targets and a zero count. */
    method Reset()
      modifies this`Targets, this`numProcessed
      ensures Targets == [] && numProcessed == 0
    {
      Targets, numProcessed := [], 0;
    }

    /** GetMetrics (loadbalancer.go:124-129): what a reset load balancer with
        an empty queue reports. */
    function GetMetrics(): (ms: seq<Metric>)
      ensures ms == BalancerMetrics(0, 0)
      ensures forall i :: 0 <= i < |ms| ==> ms[i].value == 0 && ms[i].severity == 0.0
    {
      [NewProcessed(0), NewQueued(0)]
    }
  }
}
