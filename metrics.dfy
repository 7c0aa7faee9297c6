/** Metric records and their constructors (metrics.go). Severity is kept
    as an exact real; the source computes it in float64. */
module Metrics {

  datatype Metric = Metric(name: string, value: int, unit: string, severity: real)

  /** One report of a node: its ID and an ordered list of metrics. */
  datatype Message = Message(nodeId: string, metrics: seq<Metric>)

  /** Response count; severity stays at its zero value. */
  function NewNumResponses(value: int): (m: Metric)
    ensures m.name == "Responses" && m.unit == "" && m.value == value
    ensures m.severity == 0.0
  {
    Metric("Responses", value, "", 0.0)
  }

  /** Average latency in milliseconds; severity ramps from 0 at 500 ms to 1 at 1000 ms. */
  function NewAvgLatency(value: int): (m: Metric)
    ensures m.name == "Avg. Latency" && m.unit == "ms" && m.value == value
    ensures 0.0 <= m.severity <= 1.0
    ensures value <= 500 ==> m.severity == 0.0
    ensures value >= 1000 ==> m.severity == 1.0
    ensures 500 < value < 1000 ==> m.severity * 500.0 == (value - 500) as real
  {
    var severity :=
      if value <= 500 then 0.0
      else if value >= 1000 then 1.0
      else (value - 500) as real / 500.0;
    Metric("Avg. Latency", value, "ms", severity)
  }

  /** Queue depth; severity is value/100 capped at 1. */
  function NewQueued(value: int): (m: Metric)
    ensures m.name == "Queued" && m.unit == "reqs" && m.value == value
    ensures m.severity <= 1.0
    ensures value >= 100 ==> m.severity == 1.0
    ensures value <= 100 ==> m.severity * 100.0 == value as real
    ensures value >= 0 ==> m.severity >= 0.0
  {
    var ratio := value as real / 100.0;
    Metric("Queued", value, "reqs", if 1.0 <= ratio then 1.0 else ratio)
  }

  /** Utilisation percentage; severity is value/100. */
  function NewUtilisation(value: int): (m: Metric)
    ensures m.name == "Utilisation" && m.unit == "%" && m.value == value
    ensures m.severity * 100.0 == value as real
    ensures 0 <= value <= 100 ==> 0.0 <= m.severity <= 1.0
  {
    Metric("Utilisation", value, "%", value as real / 100.0)
  }

  /** Processed count; severity stays at its zero value. */
  function NewProcessed(value: int): (m: Metric)
    ensures m.name == "Processed" && m.unit == "reqs" && m.value == value
    ensures m.severity == 0.0
  {
    Metric("Processed", value, "reqs", 0.0)
  }

  /** Latency severity never decreases as the latency grows. */
  lemma AvgLatencyMonotone(a: int, b: int)
    requires a <= b
    ensures NewAvgLatency(a).severity <= NewAvgLatency(b).severity
  {
    var sa, sb := NewAvgLatency(a).severity, NewAvgLatency(b).severity;
    if 500 < a && b < 1000 {
      assert sa * 500.0 == (a - 500) as real && sb * 500.0 == (b - 500) as real;
      assert (a - 500) as real <= (b - 500) as real;
    }
  }

  /** The midpoint of the ramp: 750 ms has severity one half. */
  lemma AvgLatencyMidpoint()
    ensures NewAvgLatency(750).severity == 0.5
  {
    assert NewAvgLatency(750).severity * 500.0 == 250.0;
  }

  /** Queue severity never decreases as the queue grows. */
  lemma QueuedMonotone(a: int, b: int)
    requires a <= b
    ensures NewQueued(a).severity <= NewQueued(b).severity
  {
    var sa, sb := NewQueued(a).severity, NewQueued(b).severity;
    if b <= 100 {
      assert sa * 100.0 == a as real && sb * 100.0 == b as real;
    }
  }
}
