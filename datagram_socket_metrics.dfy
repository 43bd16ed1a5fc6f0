/** Per-socket UDP accumulator: the byte and error hooks move three counters;
    `listening` names the socket and restarts its received-bytes count, and
    only a named socket reports received bytes. */
module Datagram {
  import opened JavaLang
  import opened Json
  import opened Samples
  import Scheduling

  class DatagramSocketMetrics {
    const baseName: string

    // bytes info
    var bytesReceived: int
    var bytesSent: int
    // other
    var errorCount: int

    /** `host:port` of the local address, once the socket listens. */
    var serverId: Option<string>

    constructor (prefix: string)
      ensures baseName == BaseName(prefix, "vertx.datagram")
      ensures serverId == None && bytesReceived == 0 && bytesSent == 0 && errorCount == 0
    {
      baseName := BaseName(prefix, "vertx.datagram");
      serverId := None;
      bytesReceived, bytesSent, errorCount := 0, 0, 0;
    }

    /** The socket listens on `localAddress`: it is named after it and its
        received-bytes count starts over. */
    method Listening(localAddress: SocketAddress)
      modifies this
      ensures serverId == Some(AddressId(localAddress)) && bytesReceived == 0
      ensures bytesSent == old(bytesSent) && errorCount == old(errorCount)
    {
      serverId := Some(AddressId(localAddress));
      bytesReceived := 0;
    }

    method BytesRead(remoteAddress: SocketAddress, numberOfBytes: int)
      modifies this
      ensures bytesReceived == old(bytesReceived) + numberOfBytes
      ensures serverId == old(serverId) && bytesSent == old(bytesSent) && errorCount == old(errorCount)
    {
      bytesReceived := bytesReceived + numberOfBytes;
    }

    method BytesWritten(remoteAddress: SocketAddress, numberOfBytes: int)
      modifies this
      ensures bytesSent == old(bytesSent) + numberOfBytes
      ensures serverId == old(serverId) && bytesReceived == old(bytesReceived) && errorCount == old(errorCount)
    {
      bytesSent := bytesSent + numberOfBytes;
    }

    method ExceptionOccurred(remoteAddress: SocketAddress)
      modifies this
      ensures errorCount == old(errorCount) + 1
      ensures serverId == old(serverId) && bytesReceived == old(bytesReceived) && bytesSent == old(bytesSent)
    {
      errorCount := errorCount + 1;
    }

    /** Sent bytes and errors, then, only once the socket has a name, the
        received bytes under that name; every sample is a counter. */
    method Collect(timestamp: int) returns (res: seq<Sample>)
      ensures |res| == (if serverId.Some? then 3 else 2)
      ensures res[0] == Sample(baseName + ".bytesSent", timestamp, bytesSent, Counter)
      ensures res[1] == Sample(baseName + ".errorCount", timestamp, errorCount, Counter)
      ensures serverId.Some? ==>
        res[2] == Sample(baseName + "." + serverId.value + ".bytesReceived", timestamp, bytesReceived, Counter)
    {
      res := [];
      res := res + [BuildMetric(baseName, "bytesSent", timestamp, bytesSent, Counter)];
      res := res + [BuildMetric(baseName, "errorCount", timestamp, errorCount, Counter)];
      var sid := serverId;
      if sid.Some? {
        res := res + [BuildMetric(baseName, sid.value + ".bytesReceived", timestamp, bytesReceived, Counter)];
      }
    }
  }

  /** Only bytes read after the latest `listening` are reported, under the
      name of the address it listened on. */
  method ListenThenRead(m: DatagramSocketMetrics, localAddress: SocketAddress, numberOfBytes: int, timestamp: int)
    returns (res: seq<Sample>)
    modifies m
    ensures |res| == 3
    ensures res[2].name == m.baseName + "." + localAddress.host + ":" + IntToString(localAddress.port) + ".bytesReceived"
    ensures res[2].value == numberOfBytes
  {
    m.Listening(localAddress);
    m.BytesRead(localAddress, numberOfBytes);
    res := m.Collect(timestamp);
    assert m.baseName + "." + AddressId(localAddress) + ".bytesReceived"
      == m.baseName + "." + localAddress.host + ":" + IntToString(localAddress.port) + ".bytesReceived";
  }

  /** The source's constructor. The base class runs first and sets the
      periodic collection timer, which throws when `schedule` is below one
      second. Only then is the prefix read: the monitor options' JSON
      constructor can leave it `null`, and `prefix.isEmpty()` then throws, with
      the base timer already set and never cancelled. */
  method Create(vertx: Scheduling.Timers, schedule: Int32, prefix: Option<string>) returns (r: Result<DatagramSocketMetrics>)
    requires vertx.Valid()
    modifies vertx
    ensures vertx.Valid()
    ensures r.Throws? <==> schedule < 1 || prefix.None?
    ensures schedule < 1 ==> r == Throws(IllegalArgumentException) && vertx.periodic == old(vertx.periodic)
    ensures schedule >= 1 ==> vertx.nextId == old(vertx.nextId) + 1
    ensures schedule >= 1 ==> vertx.periodic == old(vertx.periodic)[old(vertx.nextId) := Scheduling.SecondsToMillis(schedule)]
    ensures schedule >= 1 && prefix.None? ==> r == Throws(NullPointerException)
    ensures r.Ok? ==> fresh(r.value)
    ensures r.Ok? ==> r.value.baseName == BaseName(prefix.value, "vertx.datagram")
    ensures r.Ok? ==> r.value.serverId == None && r.value.bytesReceived == 0 && r.value.bytesSent == 0 && r.value.errorCount == 0
  {
    var base := Scheduling.Create(vertx, schedule);
    if base.Throws? {
      return Throws(base.error);
    }
    if prefix.None? {
      return Throws(NullPointerException);
    }
    var m := new DatagramSocketMetrics(prefix.value);
    r := Ok(m);
  }
}
