/** Per-server TCP accumulator: connection, byte and error hooks move four
    counters; `collect` reports them in a fixed order. */
module NetServer {
  import opened JavaLang
  import opened Json
  import opened Samples
  import Scheduling

  /** The reporting order of a TCP server's metrics. */
  const NetMetricNames: seq<string> := ["connections", "bytesReceived", "bytesSent", "errorCount"]

  class NetServerMetrics {
    const baseName: string

    // connection info
    var connections: int
    // bytes info
    var bytesReceived: int
    var bytesSent: int
    // other
    var errorCount: int

    constructor (prefix: string, localAddress: SocketAddress)
      ensures baseName == BaseName(prefix, "vertx.net.server." + AddressId(localAddress))
      ensures connections == 0 && bytesReceived == 0 && bytesSent == 0 && errorCount == 0
    {
      baseName := BaseName(prefix, "vertx.net.server." + AddressId(localAddress));
      connections, bytesReceived, bytesSent, errorCount := 0, 0, 0, 0;
    }

    method Connected(remoteAddress: SocketAddress)
      modifies this
      ensures connections == old(connections) + 1
      ensures bytesReceived == old(bytesReceived) && bytesSent == old(bytesSent) && errorCount == old(errorCount)
    {
      connections := connections + 1;
    }

    method Disconnected(remoteAddress: SocketAddress)
      modifies this
      ensures connections == old(connections) - 1
      ensures bytesReceived == old(bytesReceived) && bytesSent == old(bytesSent) && errorCount == old(errorCount)
    {
      connections := connections - 1;
    }

    method BytesRead(remoteAddress: SocketAddress, numberOfBytes: int)
      modifies this
      ensures bytesReceived == old(bytesReceived) + numberOfBytes
      ensures connections == old(connections) && bytesSent == old(bytesSent) && errorCount == old(errorCount)
    {
      bytesReceived := bytesReceived + numberOfBytes;
    }

    method BytesWritten(remoteAddress: SocketAddress, numberOfBytes: int)
      modifies this
      ensures bytesSent == old(bytesSent) + numberOfBytes
      ensures connections == old(connections) && bytesReceived == old(bytesReceived) && errorCount == old(errorCount)
    {
      bytesSent := bytesSent + numberOfBytes;
    }

    method ExceptionOccurred(remoteAddress: SocketAddress)
      modifies this
      ensures errorCount == old(errorCount) + 1
      ensures connections == old(connections) && bytesReceived == old(bytesReceived) && bytesSent == old(bytesSent)
    {
      errorCount := errorCount + 1;
    }

    /** Four samples at one timestamp, named `baseName.<metric>` in the
        order of `NetMetricNames`, each metric once: the connection count
        as a gauge, the running totals as counters. */
    method Collect(timestamp: int) returns (res: seq<Sample>)
      ensures |res| == |NetMetricNames| == 4
      ensures forall i :: 0 <= i < |res| ==>
        res[i].name == baseName + "." + NetMetricNames[i] && res[i].timestamp == timestamp
      ensures forall i, j :: 0 <= i < j < |res| ==> res[i].name != res[j].name
      ensures res[0].value == connections && res[0].kind == Gauge
      ensures res[1].value == bytesReceived && res[1].kind == Counter
      ensures res[2].value == bytesSent && res[2].kind == Counter
      ensures res[3].value == errorCount && res[3].kind == Counter
    {
      res := [
        BuildMetric(baseName, "connections", timestamp, connections, Gauge),
        BuildMetric(baseName, "bytesReceived", timestamp, bytesReceived, Counter),
        BuildMetric(baseName, "bytesSent", timestamp, bytesSent, Counter),
        BuildMetric(baseName, "errorCount", timestamp, errorCount, Counter)];
      // The four names have four different lengths.
      forall i, j | 0 <= i < j < |res| ensures res[i].name != res[j].name {
        assert |NetMetricNames[i]| != |NetMetricNames[j]|;
        assert |res[i].name| != |res[j].name|;
      }
    }
  }

  /** The source's constructor. The base class runs first and sets the
      periodic collection timer, which throws when `schedule` is below one
      second. Only then is the prefix read: the monitor options' JSON
      constructor can leave it `null`, and `prefix.isEmpty()` then throws, with
      the base timer already set and never cancelled. */
  method Create(vertx: Scheduling.Timers, schedule: Int32, prefix: Option<string>, localAddress: SocketAddress) returns (r: Result<NetServerMetrics>)
    requires vertx.Valid()
    modifies vertx
    ensures vertx.Valid()
    ensures r.Throws? <==> schedule < 1 || prefix.None?
    ensures schedule < 1 ==> r == Throws(IllegalArgumentException) && vertx.periodic == old(vertx.periodic)
    ensures schedule >= 1 ==> vertx.nextId == old(vertx.nextId) + 1
    ensures schedule >= 1 ==> vertx.periodic == old(vertx.periodic)[old(vertx.nextId) := Scheduling.SecondsToMillis(schedule)]
    ensures schedule >= 1 && prefix.None? ==> r == Throws(NullPointerException)
    ensures r.Ok? ==> fresh(r.value)
    ensures r.Ok? ==> r.value.baseName == BaseName(prefix.value, "vertx.net.server." + AddressId(localAddress))
    ensures r.Ok? ==> r.value.connections == 0 && r.value.bytesReceived == 0 && r.value.bytesSent == 0 && r.value.errorCount == 0
  {
    var base := Scheduling.Create(vertx, schedule);
    if base.Throws? {
      return Throws(base.error);
    }
    if prefix.None? {
      return Throws(NullPointerException);
    }
    var m := new NetServerMetrics(prefix.value, localAddress);
    r := Ok(m);
  }
}
