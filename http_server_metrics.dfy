/** Per-server HTTP accumulator: hook methods called by the networking
    runtime move eight counters; `collect` reports them in a fixed order. */
module HttpServer {
  import opened JavaLang
  import opened Json
  import opened Samples
  import opened HttpCounters
  import Scheduling

  class HttpServerMetrics {
    const baseName: string
    /** The address the server listens on (what the supplier groups by). */
    const serverAddress: SocketAddress

    // request info
    var processingTime: int
    var requestCount: int
    var requests: int
    // HTTP and WebSocket connection info
    var httpConnections: int
    var wsConnections: int
    // bytes info
    var bytesReceived: int
    var bytesSent: int
    // other
    var errorCount: int

    function Snapshot(): Counters
      reads this
    {
      Counters(processingTime, requestCount, requests, httpConnections, wsConnections, bytesReceived, bytesSent, errorCount)
    }

    constructor (prefix: string, localAddress: SocketAddress)
      ensures baseName == BaseName(prefix, "vertx.http.server." + AddressId(localAddress))
      ensures serverAddress == localAddress && Snapshot() == Zero
    {
      baseName := BaseName(prefix, "vertx.http.server." + AddressId(localAddress));
      serverAddress := localAddress;
      processingTime, requestCount, requests := 0, 0, 0;
      httpConnections, wsConnections := 0, 0;
      bytesReceived, bytesSent, errorCount := 0, 0, 0;
    }

    /** A request starts: one more in flight; the clock reading is returned
        as the request's metric. */
    method RequestBegin(now: int) returns (nanoStart: int)
      modifies this
      ensures nanoStart == now
      ensures Snapshot() == old(Snapshot()).(requests := old(requests) + 1)
    {
      requests := requests + 1;
      nanoStart := now;
    }

    /** A response ends: one more request served, its elapsed time (in
        milliseconds, truncated) added, one fewer in flight. */
    method ResponseEnd(nanoStart: int, now: int)
      modifies this
      ensures Snapshot() == old(Snapshot()).(
        requestCount := old(requestCount) + 1,
        processingTime := old(processingTime) + NanosToMillis(now - nanoStart),
        requests := old(requests) - 1)
    {
      var requestProcessingTime := NanosToMillis(now - nanoStart);
      requestCount := requestCount + 1;
      processingTime := processingTime + requestProcessingTime;
      requests := requests - 1;
    }

    /** An upgrade to WebSocket is not measured: no counter moves. */
    method Upgrade(requestMetric: int) returns (socketMetric: Option<int>)
      ensures socketMetric == None
    {
      socketMetric := None;
    }

    /** `connected(Void, ServerWebSocket)`. */
    method WebSocketConnected()
      modifies this
      ensures Snapshot() == old(Snapshot()).(wsConnections := old(wsConnections) + 1)
    {
      wsConnections := wsConnections + 1;
    }

    /** `disconnected(Void)`, the WebSocket overload. */
    method WebSocketDisconnected()
      modifies this
      ensures Snapshot() == old(Snapshot()).(wsConnections := old(wsConnections) - 1)
    {
      wsConnections := wsConnections - 1;
    }

    /** `connected(SocketAddress)`: a new HTTP connection. */
    method Connected(remoteAddress: SocketAddress)
      modifies this
      ensures Snapshot() == old(Snapshot()).(httpConnections := old(httpConnections) + 1)
    {
      httpConnections := httpConnections + 1;
    }

    /** `disconnected(Void, SocketAddress)`: an HTTP connection closes. */
    method Disconnected(remoteAddress: SocketAddress)
      modifies this
      ensures Snapshot() == old(Snapshot()).(httpConnections := old(httpConnections) - 1)
    {
      httpConnections := httpConnections - 1;
    }

    method BytesRead(remoteAddress: SocketAddress, numberOfBytes: int)
      modifies this
      ensures Snapshot() == old(Snapshot()).(bytesReceived := old(bytesReceived) + numberOfBytes)
    {
      bytesReceived := bytesReceived + numberOfBytes;
    }

    method BytesWritten(remoteAddress: SocketAddress, numberOfBytes: int)
      modifies this
      ensures Snapshot() == old(Snapshot()).(bytesSent := old(bytesSent) + numberOfBytes)
    {
      bytesSent := bytesSent + numberOfBytes;
    }

    method ExceptionOccurred(remoteAddress: SocketAddress)
      modifies this
      ensures Snapshot() == old(Snapshot()).(errorCount := old(errorCount) + 1)
    {
      errorCount := errorCount + 1;
    }

    /** The eight counters, in the fixed reporting order, at one timestamp;
        reading them changes nothing. */
    method Collect(timestamp: int) returns (res: seq<Sample>)
      ensures IsServerReport(baseName, Snapshot(), timestamp, res)
    {
      res := [
        BuildMetric(baseName, "processingTime", timestamp, processingTime, Counter),
        BuildMetric(baseName, "requestCount", timestamp, requestCount, Counter),
        BuildMetric(baseName, "requests", timestamp, requests, Gauge),
        BuildMetric(baseName, "httpConnections", timestamp, httpConnections, Gauge),
        BuildMetric(baseName, "wsConnections", timestamp, wsConnections, Gauge),
        BuildMetric(baseName, "bytesReceived", timestamp, bytesReceived, Counter),
        BuildMetric(baseName, "bytesSent", timestamp, bytesSent, Counter),
        BuildMetric(baseName, "errorCount", timestamp, errorCount, Counter)];
    }
  }

  /** The source's constructor. The base class runs first and sets the
      periodic collection timer, which throws when `schedule` is below one
      second; otherwise the accumulator is built under the server's name.
      The options' setter has already turned a `null` prefix into `""`. */
  method Create(vertx: Scheduling.Timers, schedule: Int32, prefix: string, localAddress: SocketAddress)
    returns (r: Result<HttpServerMetrics>)
    requires vertx.Valid()
    modifies vertx
    ensures vertx.Valid()
    ensures r.Throws? <==> schedule < 1
    ensures r.Throws? ==> r.error == IllegalArgumentException && vertx.periodic == old(vertx.periodic)
    ensures r.Ok? ==> vertx.nextId == old(vertx.nextId) + 1
    ensures r.Ok? ==> vertx.periodic == old(vertx.periodic)[old(vertx.nextId) := Scheduling.SecondsToMillis(schedule)]
    ensures r.Ok? ==> fresh(r.value)
    ensures r.Ok? ==> r.value.baseName == BaseName(prefix, "vertx.http.server." + AddressId(localAddress))
    ensures r.Ok? ==> r.value.serverAddress == localAddress && r.value.Snapshot() == Zero
  {
    var base := Scheduling.Create(vertx, schedule);
    if base.Throws? {
      return Throws(base.error);
    }
    var m := new HttpServerMetrics(prefix, localAddress);
    r := Ok(m);
  }

  /** A request's begin followed by its end leaves the in-flight gauge where
      it was, counts one request and adds its elapsed milliseconds. */
  method MatchedRequest(m: HttpServerMetrics, start: int, end: int)
    modifies m
    ensures m.requests == old(m.requests)
    ensures m.requestCount == old(m.requestCount) + 1
    ensures m.processingTime == old(m.processingTime) + NanosToMillis(end - start)
    ensures m.httpConnections == old(m.httpConnections) && m.wsConnections == old(m.wsConnections)
    ensures m.bytesReceived == old(m.bytesReceived) && m.bytesSent == old(m.bytesSent)
    ensures m.errorCount == old(m.errorCount)
  {
    var nanoStart := m.RequestBegin(start);
    m.ResponseEnd(nanoStart, end);
  }

  /** Metric naming: with no prefix a server metric is named
      `vertx.http.server.<host>:<port>.<metric>`; with a prefix, the prefix
      and a dot come first. */
  lemma ServerMetricName(prefix: string, address: SocketAddress, k: HttpMetric, timestamp: int, value: int)
    ensures var base := BaseName(prefix, "vertx.http.server." + AddressId(address));
      BuildMetric(base, MetricName(k), timestamp, value, MetricKind(k)).name ==
        (if prefix == "" then "" else prefix + ".")
        + "vertx.http.server." + address.host + ":" + IntToString(address.port) + "." + MetricName(k)
  {
    var head := if prefix == "" then "" else prefix + ".";
    var category := "vertx.http.server." + AddressId(address);
    assert BaseName(prefix, category) == head + category;
    assert head + "vertx.http.server." + address.host + ":" + IntToString(address.port) == head + category;
  }
}
