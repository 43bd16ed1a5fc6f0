/** The eight counters an HTTP server is measured by, the order in which they
    are reported and the kind each is reported as. Shared by both HTTP server
    metrics classes and by the supplier that aggregates them per address. */
module HttpCounters {
  import opened Samples

  datatype HttpMetric =
    | ProcessingTime | RequestCount | Requests | HttpConnections
    | WsConnections | BytesReceived | BytesSent | ErrorCount

  /** The fixed order of every HTTP server `collect`. */
  const MetricOrder: seq<HttpMetric> :=
    [ProcessingTime, RequestCount, Requests, HttpConnections, WsConnections, BytesReceived, BytesSent, ErrorCount]

  function MetricName(k: HttpMetric): string {
    match k
    case ProcessingTime => "processingTime"
    case RequestCount => "requestCount"
    case Requests => "requests"
    case HttpConnections => "httpConnections"
    case WsConnections => "wsConnections"
    case BytesReceived => "bytesReceived"
    case BytesSent => "bytesSent"
    case ErrorCount => "errorCount"
  }

  /** Live counts (requests in flight, open connections) are gauges; running
      totals are counters. */
  function MetricKind(k: HttpMetric): MetricType {
    match k
    case Requests | HttpConnections | WsConnections => Gauge
    case _ => Counter
  }

  /** The values of the eight counters of one server. */
  datatype Counters = Counters(
    processingTime: int, requestCount: int, requests: int, httpConnections: int,
    wsConnections: int, bytesReceived: int, bytesSent: int, errorCount: int)

  const Zero := Counters(0, 0, 0, 0, 0, 0, 0, 0)

  function Value(c: Counters, k: HttpMetric): int {
    match k
    case ProcessingTime => c.processingTime
    case RequestCount => c.requestCount
    case Requests => c.requests
    case HttpConnections => c.httpConnections
    case WsConnections => c.wsConnections
    case BytesReceived => c.bytesReceived
    case BytesSent => c.bytesSent
    case ErrorCount => c.errorCount
  }

  /** Distinct metrics have distinct names (the names differ in length or,
      for the two of length 13, in their first letter). */
  lemma MetricNameInjective(k1: HttpMetric, k2: HttpMetric)
    requires MetricName(k1) == MetricName(k2)
    ensures k1 == k2
  {
    var n1, n2 := MetricName(k1), MetricName(k2);
    assert |n1| == |n2| && n1[0] == n2[0];
  }

  lemma MetricOrderDistinct()
    ensures forall i, j :: 0 <= i < j < |MetricOrder| ==> MetricOrder[i] != MetricOrder[j]
  {
  }

  /** What one HTTP server `collect` reports: the eight counters in
      `MetricOrder`, each as `baseName + "." + metric`, all at `timestamp`. */
  ghost predicate IsServerReport(baseName: string, c: Counters, timestamp: int, res: seq<Sample>) {
    && |res| == |MetricOrder|
    && forall i :: 0 <= i < |MetricOrder| ==>
         res[i] == BuildMetric(baseName, MetricName(MetricOrder[i]), timestamp, Value(c, MetricOrder[i]), MetricKind(MetricOrder[i]))
  }

  /** The samples of one server report carry pairwise distinct names, one
      timestamp, and the kinds the backend expects. */
  lemma ServerReportShape(baseName: string, c: Counters, timestamp: int, res: seq<Sample>)
    requires IsServerReport(baseName, c, timestamp, res)
    ensures |res| == 8
    ensures forall i :: 0 <= i < |res| ==> res[i].timestamp == timestamp
    ensures forall i, j :: 0 <= i < j < |res| ==> res[i].name != res[j].name
    ensures res[2].kind == Gauge && res[3].kind == Gauge && res[4].kind == Gauge
    ensures res[0].kind == Counter && res[1].kind == Counter && res[5].kind == Counter
    ensures res[6].kind == Counter && res[7].kind == Counter
  {
    MetricOrderDistinct();
    forall i, j | 0 <= i < j < |res| ensures res[i].name != res[j].name {
      if res[i].name == res[j].name {
        assert MetricOrder[i] != MetricOrder[j];
        BuildMetricNameInjective(baseName, MetricName(MetricOrder[i]), MetricName(MetricOrder[j]), timestamp,
          res[i].value, res[j].value, res[i].kind, res[j].kind);
        MetricNameInjective(MetricOrder[i], MetricOrder[j]);
      }
    }
  }
}
